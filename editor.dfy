/** The editor page's handlers (`src/app/page.tsx`): the upload whitelist and file-name
    stem, the colour-type switch, the numeric-input fallbacks, the pocket-mode switch,
    logo centring and logo upload, and the preview's zoom and pan. The pocket and logo
    configurations are the records the page expects; the store does not hold them, so
    here they are plain values handed in and out. */
module Editor {
  import opened Base
  import opened Store
  import opened Patterns
  import opened Drawing

  // ---------------------------------------------------------------------------
  // Uploads

  /** The five MIME types `handleFileUpload` and `handleLogoFileUpload` accept. */
  const AcceptedUploadTypes: seq<string> := ["image/svg+xml", "application/pdf", "image/png", "image/jpeg", "image/jpg"]

  /** `validTypes.includes(file.type)`: an exact, case-sensitive match. */
  predicate Accepted(mimeType: string) { mimeType in AcceptedUploadTypes }

  /** Every accepted type has a decoding route, so an accepted pattern file can always
      become a pattern, and only SVG takes the vector route. */
  lemma AcceptedTypesAreRoutable(mimeType: string)
    requires Accepted(mimeType)
    ensures RouteFor(mimeType) != Unsupported
    ensures RouteFor(mimeType) == VectorRoute <==> mimeType == "image/svg+xml"
  {
    if mimeType == "image/svg+xml" {
      SvgTypeRoute();
    } else if mimeType == "application/pdf" {
      PdfTypeRoute();
    } else {
      RasterTypeRoute(mimeType);
    }
  }

  /** The whitelist is an exact match: plain text is refused, and so is an upper-case
      spelling of an accepted type, although the drawing code would route it. */
  lemma WhitelistIsExact()
    ensures !Accepted("text/plain") && !Accepted("IMAGE/PNG")
  {
  }

  /** `name.replace(/\.[^/.]+$/, '')`: drops a final `.` and the extension after it,
      when that extension is non-empty and holds no `/`. */
  function FileStem(name: string): (stem: string)
    ensures |stem| <= |name| && stem == name[..|stem|]
  {
    match LastIndexOf(name, '.')
    case Some(i) => if i + 1 < |name| && '/' !in name[i + 1..] then name[..i] else name
    case None => name
  }

  /** A name made of a base, a dot and a non-empty extension without `.` or `/` loses
      exactly the dot and the extension; a name without a dot is kept whole. */
  lemma FileStemOfExtension(base: string, ext: string)
    requires |ext| > 0 && '.' !in ext && '/' !in ext
    ensures FileStem(base + "." + ext) == base
    ensures '.' !in base ==> FileStem(base) == base
  {
    var name := base + "." + ext;
    assert name[|base|] == '.';
    assert name[|base| + 1..] == ext;
    assert LastIndexOf(name, '.') == Some(|base|);
  }

  /** The extension pattern needs at least one character after the last dot and none
      of them a `/`: a name ending in a dot, or with a `/` after its last dot, is kept
      whole. */
  lemma FileStemKeepsWhole(base: string, tail: string)
    requires '.' !in tail && (tail == "" || '/' in tail)
    ensures FileStem(base + "." + tail) == base + "." + tail
  {
    var name := base + "." + tail;
    assert name[|base|] == '.';
    assert name[|base| + 1..] == tail;
    assert LastIndexOf(name, '.') == Some(|base|);
  }

  /** The pattern configuration `handlePatternUpdate({ file, patternName })` commits:
      the current pattern configuration, or the page's default pattern ("自定义图案",
      tile) when the colour is solid, with the file and the name replaced. */
  function PatternUpdated(cc: ColorConfig, file: FileRef): (r: ColorConfig)
    ensures r.Pattern? && r.file == Some(file) && r.patternName == FileStem(file.name)
    ensures cc.Pattern? ==> r == cc.(file := Some(file), patternName := FileStem(file.name))
    ensures cc.Solid? ==> r.repeatMode == "tile" && r.customSize.None? &&
                          r.customPositionX.None? && r.customPositionY.None?
  {
    var current := if cc.Pattern? then cc else Pattern(None, "自定义图案", "tile", None, None, None);
    current.(file := Some(file), patternName := FileStem(file.name))
  }

  /** `handleFileUpload`: nothing happens without a file or for a refused type;
      otherwise the file becomes the temporary file and the pattern configuration's
      file and name. */
  method HandleFileUpload(store: DesignStore, file: Option<FileRef>)
    modifies store
    ensures file.None? || !Accepted(file.value.mimeType) ==>
      store.design == old(store.design) && store.tempFile == old(store.tempFile)
    ensures file.Some? && Accepted(file.value.mimeType) ==>
      && store.tempFile == file
      && store.design == old(store.design).(colorConfig := PatternUpdated(old(store.design).colorConfig, file.value))
  {
    if file.Some? {
      if !Accepted(file.value.mimeType) {
        return;
      }
      var design := store.design;
      store.SetTempFile(file);
      store.UpdateColorConfig(PatternUpdated(design.colorConfig, file.value));
    }
  }

  /** After an accepted pattern upload the drawing uses that file and can route it. */
  lemma AcceptedUploadIsDrawn(cc: ColorConfig, file: FileRef)
    requires Accepted(file.mimeType)
    ensures FileToUse(Some(file), PatternUpdated(cc, file)) == Some(file)
    ensures RouteFor(file.mimeType) != Unsupported
  {
    AcceptedTypesAreRoutable(file.mimeType);
  }

  /** The inline pattern input: it skips the whitelist and spreads the current colour
      configuration. A solid configuration keeps its `type`, so every reader still
      sees the same solid colour. */
  method HandleInlinePatternInput(store: DesignStore, file: Option<FileRef>)
    modifies store
    ensures file.None? ==> store.design == old(store.design) && store.tempFile == old(store.tempFile)
    ensures file.Some? ==> store.tempFile == file
    ensures file.Some? && old(store.design).colorConfig.Pattern? ==>
      store.design == old(store.design).(colorConfig :=
        old(store.design).colorConfig.(file := file, patternName := FileStem(file.value.name)))
    ensures file.Some? && old(store.design).colorConfig.Solid? ==> store.design == old(store.design)
  {
    if file.Some? {
      var design := store.design;
      store.SetTempFile(file);
      if design.colorConfig.Pattern? {
        store.UpdateColorConfig(design.colorConfig.(file := file, patternName := FileStem(file.value.name)));
      } else {
        store.UpdateColorConfig(design.colorConfig);
      }
    }
  }

  /** The inline input lets any file through: a plain-text file under a pattern is
      taken as the temporary file, and the drawing then finds no route for it and
      shows the placeholder. */
  lemma InlineInputSkipsWhitelist(d: ApronDesign, file: FileRef, decoding: Decoding)
    requires d.colorConfig.Pattern? && file.mimeType == "text/plain"
    ensures !Accepted(file.mimeType)
    ensures PatternOutcome(d, Some(file), decoding, PatternAreaWidth(d), PatternAreaHeight(d)).None?
  {
    TextTypeRoute();
  }

  // ---------------------------------------------------------------------------
  // Colour type

  /** The configuration `handleColorTypeChange` installs: the default coral solid, or
      a blank tiled pattern without a file. */
  function ColorConfigForType(toPattern: bool): (cc: ColorConfig)
    ensures !toPattern ==> cc == DefaultColorConfig()
    ensures toPattern ==> cc.Pattern? && cc.file.None? && cc.repeatMode == "tile" && cc.patternName == "自定义图案"
  {
    if toPattern then Pattern(None, "自定义图案", "tile", None, None, None)
    else Solid("珊瑚红", None, "#FF6B6B")
  }

  /** `handleColorTypeChange(type)`: returns the page's new colour type and replaces the
      colour configuration; the temporary file stays. */
  method HandleColorTypeChange(store: DesignStore, toPattern: bool) returns (patternSelected: bool)
    modifies store
    ensures patternSelected == toPattern
    ensures store.design == old(store.design).(colorConfig := ColorConfigForType(toPattern))
    ensures store.tempFile == old(store.tempFile)
  {
    patternSelected := toPattern;
    if !toPattern {
      store.UpdateColorConfig(Solid("珊瑚红", None, "#FF6B6B"));
    } else {
      store.UpdateColorConfig(Pattern(None, "自定义图案", "tile", None, None, None));
    }
  }

  /** Switching to pattern forgets the configured file but not the temporary file, so
      a file uploaded earlier is still what the drawing uses. */
  lemma SwitchToPatternKeepsUpload(tempFile: FileRef)
    ensures var cc := ColorConfigForType(true);
      cc.file.None? && FileToUse(Some(tempFile), cc) == Some(tempFile)
  {
  }

  // ---------------------------------------------------------------------------
  // Numeric inputs

  /** The five dimension inputs. */
  datatype DimensionField = TopWidthField | BottomWidthField | TotalHeightField | WaistHeightField | BottomHeightField

  /** The value each input falls back to when its text is not a number or is 0. */
  function FieldFallback(field: DimensionField): real {
    match field
    case TopWidthField => 30.0
    case BottomWidthField => 60.0
    case TotalHeightField => 70.0
    case WaistHeightField => 25.0
    case BottomHeightField => 40.0
  }

  /** `updateDesign({ <field>: Number(value) || <fallback> })`, where `parsed` is the
      number the text denotes (`None` for NaN): exactly one key, never 0. */
  function FieldUpdate(field: DimensionField, parsed: Option<real>): (u: DesignUpdate)
    ensures u.colorConfig.None? && u.neckStrap.None? && u.waistStrap.None?
    ensures u.topWidth.Some? <==> field == TopWidthField
    ensures u.bottomWidth.Some? <==> field == BottomWidthField
    ensures u.totalHeight.Some? <==> field == TotalHeightField
    ensures u.waistHeight.Some? <==> field == WaistHeightField
    ensures u.bottomHeight.Some? <==> field == BottomHeightField
  {
    var v := OrDefault(parsed, FieldFallback(field));
    match field
    case TopWidthField => NoUpdates.(topWidth := Some(v))
    case BottomWidthField => NoUpdates.(bottomWidth := Some(v))
    case TotalHeightField => NoUpdates.(totalHeight := Some(v))
    case WaistHeightField => NoUpdates.(waistHeight := Some(v))
    case BottomHeightField => NoUpdates.(bottomHeight := Some(v))
  }

  /** The value an input writes: the number when it is a non-zero number, the
      fallback otherwise; it is never 0. */
  lemma FieldValue(field: DimensionField, parsed: Option<real>)
    ensures var u := FieldUpdate(field, parsed);
      var v := OrDefault(parsed, FieldFallback(field));
      && v != 0.0
      && (parsed.Some? && parsed.value != 0.0 ==> v == parsed.value)
      && (field == TopWidthField ==> u.topWidth == Some(v))
      && (field == BottomWidthField ==> u.bottomWidth == Some(v))
      && (field == TotalHeightField ==> u.totalHeight == Some(v))
      && (field == WaistHeightField ==> u.waistHeight == Some(v))
      && (field == BottomHeightField ==> u.bottomHeight == Some(v))
  {
    OrDefaultNonZero(parsed, FieldFallback(field));
  }

  /** Clearing the total-height input gives 70 cm with the heights 23.1 and 46.9. */
  lemma ClearedTotalHeight(d: ApronDesign)
    ensures var r := ApplyUpdates(d, FieldUpdate(TotalHeightField, Some(0.0)));
      r.totalHeight == 70.0 && r.waistHeight == 23.1 && r.bottomHeight == 46.9
  {
    DefaultDesignHeightsDerived();
  }

  /** Editing the upper-section height directly keeps the total and the lower height,
      so any value other than the derived one leaves the heights off the rule. */
  lemma WaistInputBreaksRule(d: ApronDesign, parsed: Option<real>)
    requires OrDefault(parsed, 25.0) != WaistHeightFor(d.totalHeight)
    ensures var r := ApplyUpdates(d, FieldUpdate(WaistHeightField, parsed));
      r.totalHeight == d.totalHeight && r.bottomHeight == d.bottomHeight && !HeightsDerived(r)
  {
  }

  // ---------------------------------------------------------------------------
  // Pockets

  datatype PocketMode = NoPockets | SinglePocketMode | DoublePocketMode | MultiplePocketMode

  datatype SinglePocket = SinglePocket(width: real, height: real, positionX: real, positionY: real)
  datatype PocketSize = PocketSize(width: real, height: real)
  datatype DoublePockets = DoublePockets(leftPocket: PocketSize, rightPocket: PocketSize, spacing: real, positionY: real)
  datatype MultiplePockets = MultiplePockets(totalWidth: real, height: real, count: nat, positionY: real)

  /** The page's pocket configuration: a mode and one optional record per mode. */
  datatype PocketConfig = PocketConfig(
    mode: PocketMode,
    singlePocket: Option<SinglePocket>,
    doublePockets: Option<DoublePockets>,
    multiplePockets: Option<MultiplePockets>)

  const DefaultSinglePocket: SinglePocket := SinglePocket(15.0, 12.0, 50.0, 60.0)
  const DefaultDoublePockets: DoublePockets := DoublePockets(PocketSize(12.0, 10.0), PocketSize(12.0, 10.0), 5.0, 60.0)
  const DefaultMultiplePockets: MultiplePockets := MultiplePockets(30.0, 8.0, 3, 60.0)

  /** The configuration the pocket-mode select commits: the new mode, and the default
      record for that mode only when it has none; every other record is kept. */
  function WithPocketMode(config: PocketConfig, mode: PocketMode): (r: PocketConfig)
    ensures r.mode == mode
    ensures r.singlePocket ==
      if mode == SinglePocketMode && config.singlePocket.None? then Some(DefaultSinglePocket) else config.singlePocket
    ensures r.doublePockets ==
      if mode == DoublePocketMode && config.doublePockets.None? then Some(DefaultDoublePockets) else config.doublePockets
    ensures r.multiplePockets ==
      if mode == MultiplePocketMode && config.multiplePockets.None? then Some(DefaultMultiplePockets) else config.multiplePockets
  {
    var next := config.(mode := mode);
    if mode == SinglePocketMode && next.singlePocket.None? then next.(singlePocket := Some(DefaultSinglePocket))
    else if mode == DoublePocketMode && next.doublePockets.None? then next.(doublePockets := Some(DefaultDoublePockets))
    else if mode == MultiplePocketMode && next.multiplePockets.None? then next.(multiplePockets := Some(DefaultMultiplePockets))
    else next
  }

  /** The pocket-mode `onValueChange`: copies the configuration, sets the mode and
      fills in the missing record in place. */
  method SelectPocketMode(config: PocketConfig, value: PocketMode) returns (newPocketConfig: PocketConfig)
    ensures newPocketConfig == WithPocketMode(config, value)
  {
    newPocketConfig := config.(mode := value);
    if value == SinglePocketMode && newPocketConfig.singlePocket.None? {
      newPocketConfig := newPocketConfig.(singlePocket := Some(SinglePocket(15.0, 12.0, 50.0, 60.0)));
    } else if value == DoublePocketMode && newPocketConfig.doublePockets.None? {
      newPocketConfig := newPocketConfig.(doublePockets := Some(DoublePockets(PocketSize(12.0, 10.0), PocketSize(12.0, 10.0), 5.0, 60.0)));
    } else if value == MultiplePocketMode && newPocketConfig.multiplePockets.None? {
      newPocketConfig := newPocketConfig.(multiplePockets := Some(MultiplePockets(30.0, 8.0, 3, 60.0)));
    }
  }

  /** After selecting a mode other than "none", that mode has a record; selecting the
      same mode twice is selecting it once; "none" changes only the mode. */
  lemma PocketModeSelection(config: PocketConfig, mode: PocketMode)
    ensures mode == SinglePocketMode ==> WithPocketMode(config, mode).singlePocket.Some?
    ensures mode == DoublePocketMode ==> WithPocketMode(config, mode).doublePockets.Some?
    ensures mode == MultiplePocketMode ==> WithPocketMode(config, mode).multiplePockets.Some?
    ensures WithPocketMode(WithPocketMode(config, mode), mode) == WithPocketMode(config, mode)
    ensures WithPocketMode(config, NoPockets) == config.(mode := NoPockets)
  {
  }

  /** Going from single to double and back keeps the single pocket as it was before,
      edited or not, and leaves the double record populated as well. */
  lemma SingleDoubleSingleKeepsRecord(config: PocketConfig)
    ensures var once := WithPocketMode(config, SinglePocketMode);
      var back := WithPocketMode(WithPocketMode(once, DoublePocketMode), SinglePocketMode);
      back.singlePocket == once.singlePocket && back.doublePockets.Some? && back.mode == SinglePocketMode
  {
  }

  // ---------------------------------------------------------------------------
  // Logo

  /** The page's logo record. */
  datatype LogoConfig = LogoConfig(
    enabled: bool,
    file: Option<FileRef>,
    logoName: string,
    width: real,
    offsetX: real,
    offsetY: real,
    opacity: real,
    originalWidth: Option<nat>,
    originalHeight: Option<nat>)

  /** `Number(Math.max(0, (bottomWidth - width) / 2).toFixed(1))`. */
  function CenteredOffsetX(bottomWidth: real, logoWidth: real): (x: real)
    ensures 0.0 <= x && IsTenth(x)
    ensures Abs(x - Max(0.0, (bottomWidth - logoWidth) / 2.0)) <= 0.05
  {
    var r := Round1(Max(0.0, (bottomWidth - logoWidth) / 2.0));
    assert 0.0 <= r by {
      var n := (10.0 * Max(0.0, (bottomWidth - logoWidth) / 2.0) + 0.5).Floor;
      assert 0 <= n;
    }
    r
  }

  /** `handleCenterLogoHorizontally`: only the horizontal offset changes. */
  function CenterLogoHorizontally(bottomWidth: real, logo: LogoConfig): (r: LogoConfig)
    ensures r == logo.(offsetX := r.offsetX)
    ensures r.offsetX == CenteredOffsetX(bottomWidth, logo.width)
  {
    logo.(offsetX := CenteredOffsetX(bottomWidth, logo.width))
  }

  /** A logo no wider than the apron ends up with margins on both sides that differ by
      at most 0.1 cm; a logo wider than the apron is put at offset 0; centring twice
      is centring once. */
  lemma CenteringBalancesMargins(bottomWidth: real, logo: LogoConfig)
    ensures var x := CenterLogoHorizontally(bottomWidth, logo).offsetX;
      logo.width <= bottomWidth ==> Abs(x - (bottomWidth - logo.width - x)) <= 0.1
    ensures logo.width >= bottomWidth ==> CenterLogoHorizontally(bottomWidth, logo).offsetX == 0.0
    ensures CenterLogoHorizontally(bottomWidth, CenterLogoHorizontally(bottomWidth, logo)) ==
      CenterLogoHorizontally(bottomWidth, logo)
  {
    if logo.width >= bottomWidth {
      assert Max(0.0, (bottomWidth - logo.width) / 2.0) == 0.0;
      Round1OfTenth(0.0);
    }
  }

  /** A raster upload: an `image/` type other than SVG, whose size is read first. */
  predicate IsRaster(mimeType: string) {
    |mimeType| >= 6 && mimeType[..6] == "image/" && mimeType != "image/svg+xml"
  }

  /** What `handleLogoFileUpload` does. */
  datatype LogoUpload = NoLogoFile | LogoRejected | LogoImageUnreadable | LogoUploaded(logoTempFile: FileRef, config: LogoConfig)

  /** `handleLogoFileUpload`, where `imageSize` is the outcome of loading a raster file
      (`None` when it fails to load). */
  function LogoUploadOutcome(logo: LogoConfig, file: Option<FileRef>, imageSize: Option<(nat, nat)>): (r: LogoUpload)
    ensures file.None? <==> r == NoLogoFile
    ensures r == LogoRejected <==> file.Some? && !Accepted(file.value.mimeType)
    ensures r == LogoImageUnreadable <==>
      file.Some? && Accepted(file.value.mimeType) && IsRaster(file.value.mimeType) && imageSize.None?
    ensures r.LogoUploaded? ==>
      && r.logoTempFile == file.value
      && r.config == logo.(file := file, logoName := FileStem(file.value.name),
                           originalWidth := r.config.originalWidth, originalHeight := r.config.originalHeight)
      && (r.config.originalWidth.Some? <==> IsRaster(file.value.mimeType))
      && (IsRaster(file.value.mimeType) ==>
            r.config.originalWidth == Some(imageSize.value.0) && r.config.originalHeight == Some(imageSize.value.1))
      && (!IsRaster(file.value.mimeType) ==> r.config.originalHeight.None?)
  {
    if file.None? then NoLogoFile
    else if !Accepted(file.value.mimeType) then LogoRejected
    else
      var named := logo.(file := file, logoName := FileStem(file.value.name));
      if IsRaster(file.value.mimeType) then
        if imageSize.None? then LogoImageUnreadable
        else LogoUploaded(file.value, named.(originalWidth := Some(imageSize.value.0), originalHeight := Some(imageSize.value.1)))
      else LogoUploaded(file.value, named.(originalWidth := None, originalHeight := None))
  }

  /** The logo panel's inline file input: any file becomes the logo file, with no type
      check, and the name and the original size stay as they were. */
  function InlineLogoInput(logo: LogoConfig, file: Option<FileRef>): (r: LogoUpload)
    ensures file.None? <==> r == NoLogoFile
    ensures file.Some? ==> r == LogoUploaded(file.value, logo.(file := file))
  {
    if file.None? then NoLogoFile else LogoUploaded(file.value, logo.(file := file))
  }

  /** A plain-text file is refused by the logo upload handler but taken by the inline
      input, which also keeps the previous logo's name. */
  lemma InlineLogoInputSkipsChecks(logo: LogoConfig, file: FileRef, imageSize: Option<(nat, nat)>)
    requires file.mimeType == "text/plain"
    ensures LogoUploadOutcome(logo, Some(file), imageSize) == LogoRejected
    ensures InlineLogoInput(logo, Some(file)).LogoUploaded?
    ensures InlineLogoInput(logo, Some(file)).config.logoName == logo.logoName
  {
    WhitelistIsExact();
  }

  /** SVG and PDF logos are taken without reading a size; PNG and JPEG logos need the
      image to load. */
  lemma LogoTypesBySize()
    ensures !IsRaster("image/svg+xml") && !IsRaster("application/pdf")
    ensures IsRaster("image/png") && IsRaster("image/jpeg") && IsRaster("image/jpg")
  {
    assert "application/pdf"[0] == 'a';
  }

  // ---------------------------------------------------------------------------
  // Preview zoom and pan

  const MinPreviewScale: real := 0.3
  const MaxPreviewScale: real := 3.0

  /** `Math.min(prev + 0.2, 3)`. */
  function ZoomedIn(scale: real): real { Min(scale + 0.2, MaxPreviewScale) }

  /** `Math.max(prev - 0.2, 0.3)`. */
  function ZoomedOut(scale: real): real { Max(scale - 0.2, MinPreviewScale) }

  /** Both buttons keep a scale inside [0.3, 3] inside it; zooming in from anywhere
      never exceeds 3 and zooming out never goes below 0.3; one step in and one step
      out return to the start exactly when the start is at most 2.8, and one step out
      and one step in exactly when it is at least 0.5. */
  lemma ZoomStaysInRange(scale: real)
    ensures ZoomedIn(scale) <= MaxPreviewScale && ZoomedOut(scale) >= MinPreviewScale
    ensures MinPreviewScale <= scale <= MaxPreviewScale ==>
      MinPreviewScale <= ZoomedIn(scale) <= MaxPreviewScale && MinPreviewScale <= ZoomedOut(scale) <= MaxPreviewScale
    ensures MinPreviewScale <= scale ==> (ZoomedOut(ZoomedIn(scale)) == scale <==> scale <= 2.8)
    ensures scale <= MaxPreviewScale ==> (ZoomedIn(ZoomedOut(scale)) == scale <==> scale >= 0.5)
  {
  }

  datatype Pointer = Pointer(x: real, y: real)

  /** The preview transform and drag state of the page. */
  datatype PanState = PanState(translate: Pointer, dragStart: Pointer, dragging: bool)

  /** `handlePreviewMouseDown`: only the primary button starts a drag. */
  function MouseDownStep(s: PanState, button: int, at: Pointer): PanState {
    if button == 0 then s.(dragging := true, dragStart := at) else s
  }

  /** `handlePreviewMouseMove`: while dragging, the translation grows by the pointer's
      movement since the last event, and that position becomes the new start. */
  function MouseMoveStep(s: PanState, at: Pointer): PanState {
    if s.dragging then
      s.(translate := Pointer(s.translate.x + (at.x - s.dragStart.x), s.translate.y + (at.y - s.dragStart.y)),
         dragStart := at)
    else s
  }

  /** A run of pointer moves. */
  function MouseMoves(s: PanState, path: seq<Pointer>): PanState
    decreases |path|
  {
    if |path| == 0 then s else MouseMoves(MouseMoveStep(s, path[0]), path[1..])
  }

  /** Moves without a drag change nothing; a dragging run of moves shifts the preview
      by the distance from where the drag started to where the pointer ends up,
      whatever the path in between. */
  lemma {:induction false} DragTelescopes(s: PanState, path: seq<Pointer>)
    ensures !s.dragging ==> MouseMoves(s, path) == s
    ensures s.dragging && |path| > 0 ==>
      var e := MouseMoves(s, path);
      var last := path[|path| - 1];
      && e.dragging && e.dragStart == last
      && e.translate == Pointer(s.translate.x + (last.x - s.dragStart.x), s.translate.y + (last.y - s.dragStart.y))
    decreases |path|
  {
    if |path| > 0 {
      DragTelescopes(MouseMoveStep(s, path[0]), path[1..]);
      if |path| > 1 {
        assert path[1..][|path[1..]| - 1] == path[|path| - 1];
      }
    }
  }

  /** A drag needs the primary button: after any other button, moves do nothing. */
  lemma SecondaryButtonDoesNotPan(s: PanState, button: int, at: Pointer, path: seq<Pointer>)
    requires !s.dragging && button != 0
    ensures MouseMoves(MouseDownStep(s, button, at), path) == s
  {
    DragTelescopes(s, path);
  }

  /** The preview's state, updated in place by the handlers. */
  class Preview {
    var scale: real
    var translate: Pointer
    var dragStart: Pointer
    var isDragging: bool

    /** The initial state: scale 1, no translation, no drag. */
    constructor ()
      ensures scale == 1.0 && translate == Pointer(0.0, 0.0) && dragStart == Pointer(0.0, 0.0) && !isDragging
    {
      scale := 1.0;
      translate := Pointer(0.0, 0.0);
      dragStart := Pointer(0.0, 0.0);
      isDragging := false;
    }

    function Pan(): PanState
      reads this
    {
      PanState(translate, dragStart, isDragging)
    }

    /** `handleZoomIn`. */
    method ZoomIn()
      modifies this
      ensures scale == ZoomedIn(old(scale)) && Pan() == old(Pan())
    {
      scale := Min(scale + 0.2, 3.0);
    }

    /** `handleZoomOut`. */
    method ZoomOut()
      modifies this
      ensures scale == ZoomedOut(old(scale)) && Pan() == old(Pan())
    {
      scale := Max(scale - 0.2, 0.3);
    }

    /** `resetPreviewTransform`: scale 1 and no translation; the drag state stays. */
    method ResetTransform()
      modifies this
      ensures scale == 1.0 && translate == Pointer(0.0, 0.0)
      ensures dragStart == old(dragStart) && isDragging == old(isDragging)
    {
      scale := 1.0;
      translate := Pointer(0.0, 0.0);
    }

    /** `handlePreviewMouseDown`. */
    method MouseDown(button: int, clientX: real, clientY: real)
      modifies this
      ensures Pan() == MouseDownStep(old(Pan()), button, Pointer(clientX, clientY)) && scale == old(scale)
    {
      if button == 0 {
        isDragging := true;
        dragStart := Pointer(clientX, clientY);
      }
    }

    /** `handlePreviewMouseMove`. */
    method MouseMove(clientX: real, clientY: real)
      modifies this
      ensures Pan() == MouseMoveStep(old(Pan()), Pointer(clientX, clientY)) && scale == old(scale)
    {
      if isDragging {
        var deltaX := clientX - dragStart.x;
        var deltaY := clientY - dragStart.y;
        translate := Pointer(translate.x + deltaX, translate.y + deltaY);
        dragStart := Pointer(clientX, clientY);
      }
    }

    /** `handlePreviewMouseUp`, also bound to the pointer leaving the preview. */
    method MouseUp()
      modifies this
      ensures Pan() == old(Pan()).(dragging := false) && scale == old(scale)
    {
      isDragging := false;
    }
  }
}
