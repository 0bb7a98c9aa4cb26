/** Export assembly (`src/lib/export-utils.ts`): the SVG download, the design package
    (a ZIP archive modelled as a map from entry name to content), the PNG export's
    outcome, and the plain-text design summary. Compression, blobs, `saveAs` and the
    browser's image decoding are not modelled; their outcomes are inputs. */
module Export {
  import opened Base
  import opened Store

  /** What an archive entry holds. The JSON and the README text are kept as the
      values they are written from: the manifest is the design's fields with three
      more keys, the README the design, the colour specification lines and the export
      time. */
  datatype Content =
    | Markup(text: string)
    | Manifest(design: ApronDesign, exportDate: string, version: string, specification: string)
    | Readme(design: ApronDesign, colorSpecification: seq<string>, exportTime: string)
    | Original(file: FileRef)

  datatype Blob = SvgBlob(markup: string) | ZipBlob(entries: map<string, Content>) | PngBlob(width: nat, height: nat)

  /** One `saveAs(blob, filename)`. */
  datatype Download = Download(filename: string, blob: Blob)

  /** `exportSVG(svgContent, filename)`: the markup is saved unchanged. */
  function ExportSvg(svgContent: string, filename: string := "apron-design.svg"): (d: Download)
    ensures d.filename == filename && d.blob.SvgBlob? && d.blob.markup == svgContent
  {
    Download(filename, SvgBlob(svgContent))
  }

  // ---------------------------------------------------------------------------
  // Design package

  const SvgEntry: string := "design.svg"
  const ManifestEntry: string := "design-parameters.json"
  const ReadmeEntry: string := "README.txt"

  /** The entry name of an uploaded pattern file. */
  function PatternEntry(file: FileRef): string { "pattern-files/" + file.name }

  /** `getColorSpecification`, one string per line: type, name and hex value of a solid
      colour plus its Pantone code when it has one; type, name and repeat mode of a
      pattern plus its file's name and type when it has a file. */
  function ColorSpecLines(cc: ColorConfig): (lines: seq<string>)
    ensures |lines| >= 3
    ensures cc.Solid? ==>
      && lines[..3] == ["颜色类型: 纯色", "颜色名称: " + cc.colorName, "预览色值: " + cc.hexValue]
      && (|lines| == 4 <==> Present(cc.pantoneCode)) && (|lines| == 3 <==> !Present(cc.pantoneCode))
      && (Present(cc.pantoneCode) ==> lines[3] == "潘通色号: " + cc.pantoneCode.value)
    ensures cc.Pattern? ==>
      && lines[..3] == ["颜色类型: 印花", "图案名称: " + cc.patternName, "重复模式: " + cc.repeatMode]
      && (|lines| == 4 <==> cc.file.Some?) && (|lines| == 3 <==> cc.file.None?)
      && (cc.file.Some? ==> lines[3] == "图案文件: " + cc.file.value.name + " (" + cc.file.value.mimeType + ")")
  {
    match cc
    case Solid(colorName, pantoneCode, hexValue) =>
      ["颜色类型: 纯色", "颜色名称: " + colorName, "预览色值: " + hexValue] +
      (if Present(pantoneCode) then ["潘通色号: " + pantoneCode.value] else [])
    case Pattern(file, patternName, repeatMode, _, _, _) =>
      ["颜色类型: 印花", "图案名称: " + patternName, "重复模式: " + repeatMode] +
      (if file.Some? then ["图案文件: " + file.value.name + " (" + file.value.mimeType + ")"] else [])
  }

  /** The file `exportDesignPackage` adds beside the three fixed entries, if any. */
  function BundledPatternFile(design: ApronDesign): Option<FileRef> {
    if design.colorConfig.Pattern? then design.colorConfig.file else None
  }

  /** The archive of `exportDesignPackage`; `exportDate` and `exportTime` stand for
      the two clock readings. */
  function Bundle(svgContent: string, design: ApronDesign, exportDate: string, exportTime: string): map<string, Content> {
    var fixed := map[
      SvgEntry := Markup(svgContent),
      ManifestEntry := Manifest(design, exportDate, "2.0", "Professional Apron Design Standard"),
      ReadmeEntry := Readme(design, ColorSpecLines(design.colorConfig), exportTime)];
    match BundledPatternFile(design)
    case Some(file) => fixed[PatternEntry(file) := Original(file)]
    case None => fixed
  }

  /** The pattern entry never collides with the three fixed entries. */
  lemma PatternEntryIsNew(file: FileRef)
    ensures PatternEntry(file) != SvgEntry && PatternEntry(file) != ManifestEntry && PatternEntry(file) != ReadmeEntry
  {
    assert PatternEntry(file)[0] == 'p';
  }

  /** The archive always holds the markup verbatim, the manifest (version 2.0 and the
      fixed specification name) and the README; it holds `pattern-files/<name>` with
      the original file exactly when the colour is a pattern with a file, and nothing
      else. */
  lemma BundleEntries(svgContent: string, design: ApronDesign, exportDate: string, exportTime: string)
    ensures var b := Bundle(svgContent, design, exportDate, exportTime);
      && b[SvgEntry] == Markup(svgContent)
      && b[ManifestEntry] == Manifest(design, exportDate, "2.0", "Professional Apron Design Standard")
      && b[ReadmeEntry] == Readme(design, ColorSpecLines(design.colorConfig), exportTime)
    ensures var b := Bundle(svgContent, design, exportDate, exportTime);
      b.Keys == {SvgEntry, ManifestEntry, ReadmeEntry} +
        (if design.colorConfig.Pattern? && design.colorConfig.file.Some?
         then {PatternEntry(design.colorConfig.file.value)} else {})
    ensures var b := Bundle(svgContent, design, exportDate, exportTime);
      design.colorConfig.Pattern? && design.colorConfig.file.Some? ==>
        b[PatternEntry(design.colorConfig.file.value)] == Original(design.colorConfig.file.value)
  {
    if BundledPatternFile(design).Some? {
      PatternEntryIsNew(BundledPatternFile(design).value);
    }
  }

  /** A design restored from storage has lost its file, so its archive has exactly
      the three fixed entries. */
  lemma RestoredDesignBundlesNoFile(svgContent: string, design: ApronDesign, tempFile: Option<FileRef>,
                                    exportDate: string, exportTime: string)
    ensures Bundle(svgContent, Partialize(design, tempFile).design, exportDate, exportTime).Keys ==
      {SvgEntry, ManifestEntry, ReadmeEntry}
  {
    BundleEntries(svgContent, Partialize(design, tempFile).design, exportDate, exportTime);
  }

  /** The SVG download and the archive's `design.svg` hold the same markup. */
  lemma SvgExportMatchesBundle(svgContent: string, design: ApronDesign, exportDate: string, exportTime: string)
    ensures Bundle(svgContent, design, exportDate, exportTime)[SvgEntry] == Markup(ExportSvg(svgContent).blob.markup)
  {
  }

  /** `exportDesignPackage(svgContent, design, filename)`: adds the entries one by one
      and saves the archive. */
  method ExportDesignPackage(svgContent: string, design: ApronDesign, exportDate: string, exportTime: string,
                             filename: string := "apron-design-package.zip")
    returns (download: Download)
    ensures download == Download(filename, ZipBlob(Bundle(svgContent, design, exportDate, exportTime)))
  {
    var zip: map<string, Content> := map[];
    zip := zip[SvgEntry := Markup(svgContent)];
    var designData := Manifest(design, exportDate, "2.0", "Professional Apron Design Standard");
    zip := zip[ManifestEntry := designData];
    var readme := Readme(design, ColorSpecLines(design.colorConfig), exportTime);
    zip := zip[ReadmeEntry := readme];
    if design.colorConfig.Pattern? {
      var patternConfig := design.colorConfig;
      if patternConfig.file.Some? {
        zip := zip[PatternEntry(patternConfig.file.value) := Original(patternConfig.file.value)];
      }
    }
    download := Download(filename, ZipBlob(zip));
  }

  // ---------------------------------------------------------------------------
  // PNG export

  /** The three ways `exportPNG` rejects. */
  datatype PngError = SvgLoadFailed | NoCanvasContext | EncodeFailed

  /** What the browser does, which the model takes as given: whether the SVG image
      loads and at what size, whether a 2D context is available, and whether
      `toBlob` produces a blob. */
  datatype Browser = Browser(imageLoads: bool, imageWidth: nat, imageHeight: nat, hasContext: bool, producesBlob: bool)

  /** `exportPNG(svgContent, filename, scale)`: the markup only feeds the image
      decoder, whose outcome is `browser`. The result is the first failure met, in
      the order the callbacks run, or the one download of a PNG whose canvas is `scale`
      times the size of the image. */
  function ExportPng(browser: Browser, filename: string := "apron-design.png", scale: nat := 2): Result<Download, PngError> {
    if !browser.imageLoads then Err(SvgLoadFailed)
    else
      var canvasWidth := browser.imageWidth * scale;
      var canvasHeight := browser.imageHeight * scale;
      if !browser.hasContext then Err(NoCanvasContext)
      else if browser.producesBlob then Ok(Download(filename, PngBlob(canvasWidth, canvasHeight)))
      else Err(EncodeFailed)
  }

  /** The export succeeds exactly when the image loads, a context exists and a blob is
      produced; the saved PNG is `scale` times the image in each direction; a failure
      to load is reported before a missing context, and a missing context before a
      failed encoding. */
  lemma PngOutcomeCases(browser: Browser, filename: string, scale: nat)
    ensures ExportPng(browser, filename, scale).Ok? <==>
      browser.imageLoads && browser.hasContext && browser.producesBlob
    ensures var r := ExportPng(browser, filename, scale);
      r.Ok? ==> (r.value.filename == filename &&
                 r.value.blob == PngBlob(browser.imageWidth * scale, browser.imageHeight * scale))
    ensures !browser.imageLoads ==> ExportPng(browser, filename, scale) == Err(SvgLoadFailed)
    ensures browser.imageLoads && !browser.hasContext ==> ExportPng(browser, filename, scale) == Err(NoCanvasContext)
    ensures browser.imageLoads && browser.hasContext && !browser.producesBlob ==>
      ExportPng(browser, filename, scale) == Err(EncodeFailed)
  {
  }

  /** With the default name and scale the PNG is `apron-design.png`, twice the image's
      width and height. */
  lemma DefaultPngDoublesSize(browser: Browser)
    requires browser.imageLoads && browser.hasContext && browser.producesBlob
    ensures ExportPng(browser) == Ok(Download("apron-design.png", PngBlob(2 * browser.imageWidth, 2 * browser.imageHeight)))
  {
  }

  // ---------------------------------------------------------------------------
  // Summary

  /** A length as the summary shows it: centimetres, and inches to one decimal. */
  datatype Measure = Measure(cm: real, inches: real)

  /** A measure reports `cm` unchanged and its inch value to one decimal. */
  predicate Reports(m: Measure, cm: real) {
    m.cm == cm && Abs(m.inches - CmToInch(cm)) <= 0.05 && IsTenth(m.inches)
  }

  function MeasureOf(cm: real): (m: Measure)
    ensures Reports(m, cm)
  {
    Measure(cm, Round1(CmToInch(cm)))
  }

  /** `getDesignSummary`, as the values its text is made of. */
  datatype DesignSummary = DesignSummary(
    topWidth: Measure, bottomWidth: Measure, totalHeight: Measure,
    waistHeight: Measure, bottomHeight: Measure,
    neckStrap: Measure, waistStrap: Measure,
    colorInfo: string)

  function SummaryOf(design: ApronDesign): (s: DesignSummary)
    ensures Reports(s.topWidth, design.topWidth) && Reports(s.bottomWidth, design.bottomWidth)
    ensures Reports(s.totalHeight, design.totalHeight)
    ensures Reports(s.waistHeight, design.waistHeight) && Reports(s.bottomHeight, design.bottomHeight)
    ensures Reports(s.neckStrap, design.neckStrap) && Reports(s.waistStrap, design.waistStrap)
    ensures design.colorConfig.Solid? ==> s.colorInfo == "纯色: " + design.colorConfig.colorName
    ensures design.colorConfig.Pattern? ==> s.colorInfo == "印花: " + design.colorConfig.patternName
  {
    DesignSummary(
      MeasureOf(design.topWidth), MeasureOf(design.bottomWidth), MeasureOf(design.totalHeight),
      MeasureOf(design.waistHeight), MeasureOf(design.bottomHeight),
      MeasureOf(design.neckStrap), MeasureOf(design.waistStrap),
      if design.colorConfig.Solid? then "纯色: " + design.colorConfig.colorName
      else "印花: " + design.colorConfig.patternName)
  }

  /** The summary of the default design: 45 x 60 x 70 cm is 17.7 x 23.6 x 27.6 in. */
  lemma DefaultSummaryInches()
    ensures var s := SummaryOf(DefaultDesign());
      s.topWidth.inches == 17.7 && s.bottomWidth.inches == 23.6 && s.totalHeight.inches == 27.6
  {
    assert (10.0 * CmToInch(45.0) + 0.5).Floor == 177;
    assert (10.0 * CmToInch(60.0) + 0.5).Floor == 236;
    assert (10.0 * CmToInch(70.0) + 0.5).Floor == 276;
  }
}
