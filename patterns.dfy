/** Pattern fills of the drawing engine (`src/lib/svg-generator.ts`): how an uploaded
    file's MIME type picks the decoding route, and the geometry of the `<pattern>` tile
    (SVG 1.1, section 13.3, always with `patternUnits="userSpaceOnUse"` and origin 0,0)
    for each of the four repeat modes, for vector content and for raster content. */
module Patterns {
  import opened Base
  import opened Store

  datatype RepeatMode = Tile | Stretch | Center | Custom

  function ModeName(m: RepeatMode): string {
    match m
    case Tile => "tile"
    case Stretch => "stretch"
    case Center => "center"
    case Custom => "custom"
  }

  /** The `switch (repeatMode)` of the source: a known name, or `None` for the
      `default` branch. */
  function ModeOf(s: string): (m: Option<RepeatMode>)
    ensures m.Some? ==> ModeName(m.value) == s
  {
    if s == "tile" then Some(Tile)
    else if s == "stretch" then Some(Stretch)
    else if s == "center" then Some(Center)
    else if s == "custom" then Some(Custom)
    else None
  }

  /** Every mode's name is recognised as that mode. */
  lemma ModeNameRoundTrip(m: RepeatMode)
    ensures ModeOf(ModeName(m)) == Some(m)
  {
  }

  /** The modes that give the tile a transparent background rectangle. */
  predicate HasBackground(mode: string) {
    mode == "center" || mode == "custom"
  }

  // ---------------------------------------------------------------------------
  // Tile geometry

  /** One step of an SVG `transform` list. */
  datatype TransformOp = Scale(sx: real, sy: real) | Translate(tx: real, ty: real)

  /** Tile size, content transform and opacity chosen for vector content. */
  datatype SvgTile = SvgTile(width: real, height: real, transform: seq<TransformOp>, opacity: real)

  /** Tile size and image box chosen for raster content. */
  datatype ImageTile = ImageTile(width: real, height: real, x: real, y: real, imageWidth: real, imageHeight: real)

  /** The size the source assumes every uploaded SVG has, in user units. */
  const AssumedSvgSize: real := 200.0

  /** The custom-mode percentages after the `|| 30` / `|| 50` fallbacks, as fractions. */
  function SizeFraction(customSize: Option<real>): real { OrDefault(customSize, 30.0) / 100.0 }

  function PositionFraction(customPosition: Option<real>): real { OrDefault(customPosition, 50.0) / 100.0 }

  /** `createSVGPattern`'s `switch` over the repeat mode, for an area of `w` by `h`. */
  function SvgTileLayout(mode: string, w: real, h: real, customSize: Option<real>,
                         customPositionX: Option<real>, customPositionY: Option<real>): SvgTile
  {
    match ModeOf(mode)
    case Some(Stretch) => SvgTile(w, h, [Scale(w / 300.0, h / 300.0)], 0.8)
    case Some(Center) => CenterSvgTile(w, h)
    case Some(Custom) => CustomSvgTile(w, h, customSize, customPositionX, customPositionY)
    case _ => SvgTile(100.0, 100.0, [Scale(0.3, 0.3), Translate(20.0, 20.0)], 0.7)
  }

  /** The center branch for vector content: 30 % of the shorter side, centred. */
  function CenterSvgTile(w: real, h: real): SvgTile {
    var s := Min(w, h) * 0.3 / AssumedSvgSize;
    SvgTile(w, h, [Translate((w - AssumedSvgSize * s) / 2.0, (h - AssumedSvgSize * s) / 2.0), Scale(s, s)], 0.8)
  }

  /** The custom branch for vector content: the translation is clamped below at 0. */
  function CustomSvgTile(w: real, h: real, customSize: Option<real>,
                         customPositionX: Option<real>, customPositionY: Option<real>): SvgTile
  {
    var s := Min(w, h) * SizeFraction(customSize) / AssumedSvgSize;
    var maxX := w - AssumedSvgSize * s;
    var maxY := h - AssumedSvgSize * s;
    SvgTile(w, h, [Translate(Max(0.0, maxX * PositionFraction(customPositionX)),
                             Max(0.0, maxY * PositionFraction(customPositionY))), Scale(s, s)], 0.8)
  }

  /** `createImagePattern`'s `switch` over the repeat mode, for an area of `w` by `h`. */
  function ImageTileLayout(mode: string, w: real, h: real, customSize: Option<real>,
                           customPositionX: Option<real>, customPositionY: Option<real>): ImageTile
  {
    match ModeOf(mode)
    case Some(Stretch) => ImageTile(w, h, 0.0, 0.0, w, h)
    case Some(Center) => CenterImageTile(w, h)
    case Some(Custom) => CustomImageTile(w, h, customSize, customPositionX, customPositionY)
    case _ => ImageTile(100.0, 100.0, 0.0, 0.0, 100.0, 100.0)
  }

  /** The center branch for raster content. */
  function CenterImageTile(w: real, h: real): ImageTile {
    var side := Min(w, h) * 0.3;
    ImageTile(w, h, (w - side) / 2.0, (h - side) / 2.0, side, side)
  }

  /** The offset `extent * fraction`, clamped into [0, extent]: never negative, never
      past a non-negative extent, and untouched by the clamp when the fraction lies
      in [0, 1]. */
  function ClampedOffset(extent: real, fraction: real): (r: real)
    ensures 0.0 <= r
    ensures 0.0 <= extent ==> r <= extent
    ensures 0.0 <= extent && 0.0 <= fraction <= 1.0 ==> r == extent * fraction
  {
    var p := extent * fraction;
    if 0.0 <= extent && 0.0 <= fraction <= 1.0 then
      MulMonotone(extent, fraction, 1.0);
      MulMonotone(extent, 0.0, fraction);
      assert 0.0 <= p <= extent;
      Max(0.0, Min(extent, p))
    else
      Max(0.0, Min(extent, p))
  }

  /** The custom branch for raster content: the position is clamped into [0, w - side]. */
  function CustomImageTile(w: real, h: real, customSize: Option<real>,
                           customPositionX: Option<real>, customPositionY: Option<real>): ImageTile
  {
    var side := Min(w, h) * SizeFraction(customSize);
    ImageTile(w, h,
              ClampedOffset(w - side, PositionFraction(customPositionX)),
              ClampedOffset(h - side, PositionFraction(customPositionY)),
              side, side)
  }

  /** Both switches dispatch on the same recognised mode: center and custom take their
      branch, whatever the other parameters. */
  lemma ModeBranches(mode: string, w: real, h: real, size: Option<real>, px: Option<real>, py: Option<real>)
    ensures ModeOf(mode) == Some(Center) ==>
      ImageTileLayout(mode, w, h, size, px, py) == CenterImageTile(w, h) &&
      SvgTileLayout(mode, w, h, size, px, py) == CenterSvgTile(w, h)
    ensures ModeOf(mode) == Some(Custom) ==>
      ImageTileLayout(mode, w, h, size, px, py) == CustomImageTile(w, h, size, px, py) &&
      SvgTileLayout(mode, w, h, size, px, py) == CustomSvgTile(w, h, size, px, py)
    ensures ModeOf("center") == Some(Center) && ModeOf("custom") == Some(Custom)
  {
  }

  /** Tile mode and every unrecognised mode: a 100 x 100 tile; an image fills it from
      the origin, vector content is scaled to 0.3 and shifted by (20, 20) at opacity 0.7. */
  lemma TileAndUnknownModes(mode: string, w: real, h: real, size: Option<real>, px: Option<real>, py: Option<real>)
    requires ModeOf(mode) == Some(Tile) || ModeOf(mode).None?
    ensures ImageTileLayout(mode, w, h, size, px, py) == ImageTile(100.0, 100.0, 0.0, 0.0, 100.0, 100.0)
    ensures SvgTileLayout(mode, w, h, size, px, py) == SvgTile(100.0, 100.0, [Scale(0.3, 0.3), Translate(20.0, 20.0)], 0.7)
  {
  }

  /** Stretch mode: tile and image are the whole area. */
  lemma StretchFillsArea(w: real, h: real, size: Option<real>, px: Option<real>, py: Option<real>)
    ensures ImageTileLayout("stretch", w, h, size, px, py) == ImageTile(w, h, 0.0, 0.0, w, h)
    ensures SvgTileLayout("stretch", w, h, size, px, py).width == w
    ensures SvgTileLayout("stretch", w, h, size, px, py).height == h
  {
  }

  /** Center mode: the tile is the whole area, the image is a square of 30 % of the
      shorter side, and the gaps left and right (and above and below) are equal; the
      nominal 200-unit vector content is centred in the same way. */
  lemma CenterIsCentred(w: real, h: real)
    requires 0.0 <= w && 0.0 <= h
    ensures var t := CenterImageTile(w, h);
      && t.width == w && t.height == h
      && t.imageWidth == t.imageHeight == 0.3 * Min(w, h)
      && 0.0 <= t.x && t.x == w - (t.x + t.imageWidth)
      && 0.0 <= t.y && t.y == h - (t.y + t.imageHeight)
    ensures var v := CenterSvgTile(w, h);
      && |v.transform| == 2 && v.transform[0].Translate? && v.transform[1].Scale?
      && var content := AssumedSvgSize * v.transform[1].sx;
      && v.transform[0].tx == w - (v.transform[0].tx + content)
      && v.transform[0].ty == h - (v.transform[0].ty + content)
  {
  }

  /** Custom mode, raster content: the size defaults to 30 % when missing or 0, and
      the image is a square of that fraction of the shorter side; its position never
      goes below 0, and never past the far edge while the image fits. */
  lemma CustomImageBounds(w: real, h: real, size: Option<real>, px: Option<real>, py: Option<real>)
    ensures var t := CustomImageTile(w, h, size, px, py);
      && t.width == w && t.height == h
      && t.imageWidth == t.imageHeight == Min(w, h) * OrDefault(size, 30.0) / 100.0
      && 0.0 <= t.x && 0.0 <= t.y
      && (t.imageWidth <= w ==> t.x + t.imageWidth <= w)
      && (t.imageHeight <= h ==> t.y + t.imageHeight <= h)
  {
  }

  /** Custom mode, raster content: while the image fits, a position percentage in
      [0, 100] (after the `|| 50` fallback) maps linearly onto [0, w - side]. */
  lemma CustomImageLinear(w: real, h: real, size: Option<real>, px: Option<real>, py: Option<real>)
    requires Min(w, h) * SizeFraction(size) <= w
    requires 0.0 <= OrDefault(px, 50.0) <= 100.0
    ensures var t := CustomImageTile(w, h, size, px, py);
      t.x == (w - t.imageWidth) * PositionFraction(px)
  {
    assert 0.0 <= PositionFraction(px) <= 1.0;
  }

  /** Custom mode, raster content: 100 % is flush right, and a missing or 0 position
      falls back to 50 % and is centred (not flush left). */
  lemma CustomImageEdgeCases(w: real, h: real, size: Option<real>, px: Option<real>, py: Option<real>)
    requires Min(w, h) * SizeFraction(size) <= w
    ensures var t := CustomImageTile(w, h, size, px, py);
      px == Some(100.0) ==> t.x == w - t.imageWidth
    ensures var t := CustomImageTile(w, h, size, px, py);
      px.None? || px == Some(0.0) ==> t.x == (w - t.imageWidth) / 2.0
  {
    var t := CustomImageTile(w, h, size, px, py);
    if px == Some(100.0) {
      CustomImageLinear(w, h, size, px, py);
      assert PositionFraction(px) == 1.0;
    } else if px.None? || px == Some(0.0) {
      CustomImageLinear(w, h, size, px, py);
      assert PositionFraction(px) == 0.5;
    }
  }

  /** Custom mode, vector content: the translation is never negative. */
  lemma CustomSvgTranslateNonNegative(w: real, h: real, size: Option<real>, px: Option<real>, py: Option<real>)
    ensures var v := CustomSvgTile(w, h, size, px, py);
      && v.width == w && v.height == h && v.opacity == 0.8
      && |v.transform| == 2 && v.transform[0].Translate?
      && v.transform[0].tx >= 0.0 && v.transform[0].ty >= 0.0
  {
  }

  // ---------------------------------------------------------------------------
  // Pattern definitions

  /** A child of a `<pattern>` element: the transparent background rectangle, a group
      holding copies of the uploaded SVG's top-level elements (kept as opaque markup),
      or an `<image>` with `preserveAspectRatio="xMidYMid meet"`. */
  datatype PatternChild =
    | TransparentRect(rectWidth: real, rectHeight: real)
    | Group(transform: seq<TransformOp>, opacity: real, nodes: seq<string>)
    | Image(href: string, x: real, y: real, imageWidth: real, imageHeight: real)

  /** A `<pattern id x="0" y="0" width height patternUnits="userSpaceOnUse">`. */
  datatype PatternDef = PatternDef(id: string, width: real, height: real, children: seq<PatternChild>)

  function BackgroundFor(mode: string, w: real, h: real): seq<PatternChild> {
    if HasBackground(mode) then [TransparentRect(w, h)] else []
  }

  /** The pattern `createSVGPattern` appends. `parsed` is the result of parsing the
      file's text: the top-level elements of its `<svg>` root, or `None` when there is
      no root or its inner markup is blank (then no group is added). */
  function SvgPatternDef(id: string, parsed: Option<seq<string>>, mode: string, w: real, h: real,
                         size: Option<real>, px: Option<real>, py: Option<real>): PatternDef
  {
    var t := SvgTileLayout(mode, w, h, size, px, py);
    PatternDef(id, t.width, t.height,
      BackgroundFor(mode, t.width, t.height) +
      (if parsed.Some? then [Group(t.transform, t.opacity, parsed.value)] else []))
  }

  /** The pattern `createImagePattern` appends for an image URL. */
  function ImagePatternDef(id: string, imageUrl: string, mode: string, w: real, h: real,
                           size: Option<real>, px: Option<real>, py: Option<real>): PatternDef
  {
    var t := ImageTileLayout(mode, w, h, size, px, py);
    PatternDef(id, t.width, t.height,
      BackgroundFor(mode, t.width, t.height) + [Image(imageUrl, t.x, t.y, t.imageWidth, t.imageHeight)])
  }

  /** A pattern's first child is a transparent rectangle covering the tile exactly when
      the mode is center or custom, for vector and raster content alike; a raster
      pattern always ends with its image. */
  lemma BackgroundIffCenterOrCustom(id: string, payload: string, parsed: Option<seq<string>>, mode: string,
                                    w: real, h: real, size: Option<real>, px: Option<real>, py: Option<real>)
    ensures var p := SvgPatternDef(id, parsed, mode, w, h, size, px, py);
      (|p.children| > 0 && p.children[0] == TransparentRect(p.width, p.height)) <==> HasBackground(mode)
    ensures var p := ImagePatternDef(id, payload, mode, w, h, size, px, py);
      && (p.children[0] == TransparentRect(p.width, p.height) <==> HasBackground(mode))
      && p.children[|p.children| - 1].Image? && p.children[|p.children| - 1].href == payload
  {
  }

  // ---------------------------------------------------------------------------
  // Dispatch on the file type

  /** Which reader `createPatternFromFile` uses. */
  datatype AssetRoute = VectorRoute | RasterRoute | DocumentRoute | Unsupported

  /** The `if/else if` chain on the lower-cased MIME type: "svg" first, then "image",
      then "pdf". */
  function RouteFor(mimeType: string): (r: AssetRoute)
    ensures var t := ToLowerAscii(mimeType);
      && (r == VectorRoute <==> Contains(t, "svg"))
      && (r == RasterRoute <==> !Contains(t, "svg") && Contains(t, "image"))
      && (r == DocumentRoute <==> !Contains(t, "svg") && !Contains(t, "image") && Contains(t, "pdf"))
  {
    var t := ToLowerAscii(mimeType);
    if Contains(t, "svg") then VectorRoute
    else if Contains(t, "image") then RasterRoute
    else if Contains(t, "pdf") then DocumentRoute
    else Unsupported
  }

  /** A needle whose first character never occurs in the haystack is not contained. */
  lemma NotContainsFirst(haystack: string, needle: string)
    requires |needle| > 0 && needle[0] !in haystack
    ensures !Contains(haystack, needle)
  {
    forall i | 0 <= i && i + |needle| <= |haystack|
      ensures !OccursAt(haystack, needle, i)
    {
      assert haystack[i..i + |needle|][0] == haystack[i];
    }
    ContainsIffOccurs(haystack, needle);
  }

  /** A needle whose first two characters never occur next to each other in the
      haystack is not contained. */
  lemma NotContainsPair(haystack: string, needle: string)
    requires |needle| >= 2
    requires forall i :: 0 <= i < |haystack| - 1 && haystack[i] == needle[0] ==> haystack[i + 1] != needle[1]
    ensures !Contains(haystack, needle)
  {
    forall i | 0 <= i && i + |needle| <= |haystack|
      ensures !OccursAt(haystack, needle, i)
    {
      assert haystack[i..i + |needle|][0] == haystack[i];
      assert haystack[i..i + |needle|][1] == haystack[i + 1];
    }
    ContainsIffOccurs(haystack, needle);
  }

  lemma SvgTypeRoute()
    ensures RouteFor("image/svg+xml") == VectorRoute
  {
    LowerOfLower("image/svg+xml");
    ContainsAt("image/svg+xml", "svg", 6);
  }

  /** A raster type without "svg" in it that starts with "image/". */
  lemma RasterTypeRoute(mimeType: string)
    requires mimeType == "image/png" || mimeType == "image/jpeg" || mimeType == "image/jpg"
    ensures RouteFor(mimeType) == RasterRoute
  {
    LowerOfLower(mimeType);
    NotContainsFirst(mimeType, "svg");
    ContainsAt(mimeType, "image", 0);
  }

  /** The route of a MIME type that is already lower case, by the chain of tests. */
  lemma RouteOfLowerCase(mimeType: string, svg: bool, image: bool, pdf: bool)
    requires forall i :: 0 <= i < |mimeType| ==> !('A' <= mimeType[i] <= 'Z')
    requires Contains(mimeType, "svg") == svg && Contains(mimeType, "image") == image
    requires Contains(mimeType, "pdf") == pdf
    ensures RouteFor(mimeType) ==
      if svg then VectorRoute else if image then RasterRoute else if pdf then DocumentRoute else Unsupported
  {
    LowerOfLower(mimeType);
  }

  lemma PdfTypeLacksImage()
    ensures !Contains("application/pdf", "image")
  {
    NotContainsPair("application/pdf", "image");
  }

  lemma PdfTypeHasPdf()
    ensures Contains("application/pdf", "pdf")
  {
    ContainsAt("application/pdf", "pdf", 12);
  }

  /** PDF and plain text are already lower case and hold no "svg". */
  lemma LowerCaseWithoutSvg(mimeType: string)
    requires mimeType == "application/pdf" || mimeType == "text/plain"
    ensures ToLowerAscii(mimeType) == mimeType
    ensures !Contains(mimeType, "svg")
  {
    LowerOfLower(mimeType);
    NotContainsFirst(mimeType, "svg");
  }

  lemma PdfTypeRoute()
    ensures RouteFor("application/pdf") == DocumentRoute
  {
    LowerCaseWithoutSvg("application/pdf");
    PdfTypeLacksImage();
    PdfTypeHasPdf();
  }

  lemma TextTypeLacksImageAndPdf()
    ensures !Contains("text/plain", "image")
    ensures !Contains("text/plain", "pdf")
  {
    NotContainsPair("text/plain", "image");
    NotContainsPair("text/plain", "pdf");
  }

  lemma TextTypeRoute()
    ensures RouteFor("text/plain") == Unsupported
  {
    LowerCaseWithoutSvg("text/plain");
    TextTypeLacksImageAndPdf();
  }

  /** The five accepted upload types take the routes the editor expects: SVG goes to
      the vector route even though its type also contains "image", PNG and JPEG go to
      the raster route and PDF to the document route; plain text has no route. */
  lemma KnownTypesRoute()
    ensures RouteFor("image/svg+xml") == VectorRoute
    ensures RouteFor("image/png") == RasterRoute
    ensures RouteFor("image/jpeg") == RasterRoute
    ensures RouteFor("image/jpg") == RasterRoute
    ensures RouteFor("application/pdf") == DocumentRoute
    ensures RouteFor("text/plain") == Unsupported
  {
    SvgTypeRoute();
    RasterTypeRoute("image/png");
    RasterTypeRoute("image/jpeg");
    RasterTypeRoute("image/jpg");
    PdfTypeRoute();
    TextTypeRoute();
  }

  /** What the browser produced while decoding one file, none of which the model
      computes: the `Date.now()` value rendered as text, the string the reader for the
      file's route resolved with (text for SVG, a data URL for images, the rendered page
      or the informational placeholder for PDF; `None` when the read was rejected), and
      the parsed top-level elements of an SVG text. */
  datatype Decoding = Decoding(timestamp: string, payload: Option<string>, parsed: Option<seq<string>>)

  /** The id `pattern-<timestamp>` given to every pattern; it is never empty, so a
      pattern that was built is always referenced. */
  function PatternId(timestamp: string): (id: string)
    ensures |id| == 8 + |timestamp| && id[..8] == "pattern-" && id[8..] == timestamp
  {
    "pattern-" + timestamp
  }

  /** `createPatternFromFile`: the pattern it appends, or `None` when it returns null
      (an empty MIME type, an unsupported type, or an empty or failed read). */
  function PatternForFile(file: FileRef, decoding: Decoding, mode: string, w: real, h: real,
                          size: Option<real>, px: Option<real>, py: Option<real>): (r: Option<PatternDef>)
    ensures r.Some? ==> r.value.id == PatternId(decoding.timestamp)
    ensures r.Some? <==>
      file.mimeType != "" && RouteFor(file.mimeType) != Unsupported &&
      decoding.payload.Some? && decoding.payload.value != ""
    ensures r.Some? && RouteFor(file.mimeType) == VectorRoute ==>
      r.value == SvgPatternDef(PatternId(decoding.timestamp), decoding.parsed, mode, w, h, size, px, py)
    ensures r.Some? && (RouteFor(file.mimeType) == RasterRoute || RouteFor(file.mimeType) == DocumentRoute) ==>
      r.value == ImagePatternDef(PatternId(decoding.timestamp), decoding.payload.value, mode, w, h, size, px, py)
  {
    if file.mimeType == "" then None
    else if decoding.payload.None? || decoding.payload.value == "" then None
    else
      match RouteFor(file.mimeType)
      case VectorRoute => Some(SvgPatternDef(PatternId(decoding.timestamp), decoding.parsed, mode, w, h, size, px, py))
      case RasterRoute => Some(ImagePatternDef(PatternId(decoding.timestamp), decoding.payload.value, mode, w, h, size, px, py))
      case DocumentRoute => Some(ImagePatternDef(PatternId(decoding.timestamp), decoding.payload.value, mode, w, h, size, px, py))
      case Unsupported => None
  }

  /** An SVG file never takes the image route: its pattern holds the parsed group, not
      an `<image>`. */
  lemma SvgFileGivesVectorPattern(file: FileRef, decoding: Decoding, mode: string, w: real, h: real,
                                  size: Option<real>, px: Option<real>, py: Option<real>)
    requires file.mimeType == "image/svg+xml"
    requires decoding.payload.Some? && decoding.payload.value != ""
    ensures var r := PatternForFile(file, decoding, mode, w, h, size, px, py);
      r == Some(SvgPatternDef(PatternId(decoding.timestamp), decoding.parsed, mode, w, h, size, px, py))
    ensures var r := PatternForFile(file, decoding, mode, w, h, size, px, py);
      forall i :: 0 <= i < |r.value.children| ==> !r.value.children[i].Image?
  {
    SvgTypeRoute();
  }
}
