# Apron mockup drawer: a Dafny model

This project models the core of a browser-based apron design editor. The editor has four parts:

- **Design store** (`src/store/apron-design.ts`). It holds the apron's dimensions, its colour or print configuration and a temporary uploaded file. It derives the upper and lower section heights from the total height (33 %, rounded to 0.1 cm). It persists the design without its `File` objects.
- **Drawing engine** (`src/lib/svg-generator.ts`). It appends drawing elements to a document in a fixed order: background, body outline, straps, pocket, dimension lines, colour legend and title. It can fill the body with an SVG `<pattern>` (section 13.3 of SVG 1.1, user-space units) built from an uploaded SVG, raster image or PDF. The tile geometry has four repeat modes.
- **Export** (`src/lib/export-utils.ts`). It saves the SVG and a ZIP bundle (drawing, parameter manifest, readme, optional original print file). It rasterises a PNG at twice the size by default, and writes a text summary.
- **Editor page handlers** (`src/app/page.tsx`). These cover the upload whitelist and file-name stem, the colour-type switch, the numeric inputs' fallbacks, the pocket-mode switch, logo centring and upload, and the preview's zoom and pan.

Modules and files:

| file | module | contents |
|---|---|---|
| `base.dfy` | `Base` | `Option`/`Result`; `Round1` for `Math.round(10x)/10`; `OrDefault` for `x \|\| fallback`; `includes`, `toLowerCase` and `lastIndexOf` on strings |
| `store.dfy` | `Store` | the design datatypes; the update, recalculation and persistence functions; the `DesignStore` class |
| `patterns.dfy` | `Patterns` | the repeat-mode tile layouts, the file-type dispatch, the pattern definitions |
| `svg_generator.dfy` | `Drawing` | the drawing primitives, the geometry functions, `Render`, the `Generator` class |
| `export.dfy` | `Export` | the ZIP bundle as a map, the colour specification, the PNG outcome, the summary |
| `editor.dfy` | `Editor` | the page handlers and the `Preview` class |

Lengths are `real` centimetres. The drawing's coordinates are centimetres × 4 from the origin (30, 40) cm. Text output is modelled as structured values: a dimension label is a caption, a length in cm and the length in inches rounded to 0.1; it is not a formatted string. Browser results are parameters of the model:

- `Decoding` holds what the file readers produce: the timestamp in the pattern id, the file's text or data URL, and the parsed SVG children.
- `Browser` holds what the PNG export depends on: image load, image size, canvas context, blob.
- The logo's image size is an `Option`.

Where the program and its design description disagree, the model follows the program:

- A custom position of 0 is centred, because `customPositionX || 50` treats 0 as missing (`src/lib/svg-generator.ts:390-391`).
- Going single → double → single in the pocket mode keeps the earlier single-pocket record, and several pocket records can be populated at once (`src/app/page.tsx:635-663`).
- The upper and lower heights can be set directly through their inputs, which breaks the 33 % rule until the total height changes (`src/app/page.tsx:395`, `409`).
- The drawing ignores the pocket, strap-style and logo settings. It always draws one fixed 28 × 16 cm pocket and one neck strap.
- The page's load guard (`src/app/page.tsx:65`, `299`) requires `neckStrapColor`, `pocketColor` and `logoConfig`, which the store never defines. The page also calls store actions that do not exist: `updateLogoConfig`, `updatePocketConfig`, `setLogoTempFile`. So the pocket and logo handlers are modelled as functions on the records the page expects, not as store actions.
- The page constructs the generator with three arguments (`src/app/page.tsx:56`), but its constructor takes two (`src/lib/svg-generator.ts:19`). The model's `Generator` takes the two it uses.

## Model

| member | source | states |
|---|---|---|
| Base.Round1 | src/store/apron-design.ts:85-86 | `Math.round(10x)/10`, rounding halves upwards, is within 0.05 of x and has at most one decimal place |
| Base.Round1Idempotent | src/store/apron-design.ts:85-86 | rounding to 0.1 a second time changes nothing |
| Base.OrDefault | src/lib/svg-generator.ts:389-391 | `value \|\| fallback`: a present non-zero number is kept; a missing value or 0 gives the fallback |
| Base.ContainsIffOccurs | src/lib/svg-generator.ts:187-211 | the scanning `includes` is true exactly when the needle occurs at some position of the haystack |
| Base.LastIndexOf | src/app/page.tsx:129 | the index found holds the character and no later position does; no index means the character is absent |
| Store.DerivedHeightsSum | src/store/apron-design.ts:85-86 | the derived upper and lower heights have one decimal, add up to the total within 0.05 cm, and the upper one is within 0.05 cm of 33 % |
| Store.DefaultDesign | src/store/apron-design.ts:58-71 | the default design is 45 × 60 × 70 cm, heights 23.1 and 46.9, straps 50 and 80, coral solid colour |
| Store.DefaultDesignHeightsDerived | src/store/apron-design.ts:58-71 | the hand-written default heights 23.1 and 46.9 are exactly what the rule derives from 70 |
| Store.ApplyUpdates | src/store/apron-design.ts:80-91 | every key of the update overrides and every other field is kept; the heights are re-derived exactly when the update has `totalHeight`, else taken from the update or kept |
| Store.ApplyNoUpdates | src/store/apron-design.ts:80-91 | an empty update leaves the design unchanged |
| Store.UpdateKeepsHeightSum | src/store/apron-design.ts:84-89 | after an update that sets the total height, the derived heights add up to it within 0.05 cm |
| Store.Recalculated | src/store/apron-design.ts:99-110 | recalculation changes only the two derived heights and leaves them on the rule |
| Store.RecalculatedIdempotent | src/store/apron-design.ts:99-110 | recalculating twice is recalculating once; a design already on the rule is unchanged |
| Store.Partialize | src/store/apron-design.ts:120-132 | the persisted design equals the design except that a pattern's `file` becomes null; a solid configuration is kept |
| Store.PartializeStable | src/store/apron-design.ts:120-132 | the persisted value does not depend on `tempFile`, and persisting a restored value changes nothing |
| Store.DesignStore.constructor | src/store/apron-design.ts:76-77 | the store starts with the default design and no temporary file |
| Store.DesignStore.UpdateDesign | src/store/apron-design.ts:80-91 | the new design is `ApplyUpdates` of the old one; the temporary file is kept |
| Store.DesignStore.UpdateColorConfig | src/store/apron-design.ts:94-97 | only the colour configuration is replaced |
| Store.DesignStore.CalculateDimensions | src/store/apron-design.ts:99-110 | the new design is the recalculated old one; the temporary file is kept |
| Store.DesignStore.SetTempFile | src/store/apron-design.ts:112-113 | only the temporary file changes |
| Store.DesignStore.ResetDesign | src/store/apron-design.ts:115-116 | the state becomes exactly the default design with no temporary file |
| Patterns.ModeOf | src/lib/svg-generator.ts:240-288 | a recognised mode name maps back to its mode; any other string takes the default branch |
| Patterns.ModeNameRoundTrip | src/lib/svg-generator.ts:240-288 | each of the four modes is recognised from its own name |
| Patterns.ModeBranches | src/lib/svg-generator.ts:240-288 | both switches send a recognised center or custom mode to that mode's branch, whatever the other parameters |
| Patterns.TileAndUnknownModes | src/lib/svg-generator.ts:240-288 | tile and unknown modes use a 100 × 100 tile: a 100 × 100 image at (0,0), or the SVG scaled by 0.3 and moved by (20,20) at opacity 0.7 |
| Patterns.StretchFillsArea | src/lib/svg-generator.ts:366-372 | in stretch mode the tile and the image are the whole area |
| Patterns.CenterIsCentred | src/lib/svg-generator.ts:373-383 | in center mode the image side is 0.3·min(w,h), non-negative gaps are equal on both sides, and the SVG content is centred the same way |
| Patterns.CustomImageBounds | src/lib/svg-generator.ts:384-401 | in custom mode the image side is min(w,h) × size% (default 30); its position is non-negative and keeps the image inside the tile when it fits |
| Patterns.ClampedOffset | src/lib/svg-generator.ts:398-399 | the clamped image offset is never negative, never past the free extent, and equals extent × fraction whenever the fraction lies in [0, 1] |
| Patterns.CustomImageLinear | src/lib/svg-generator.ts:394-400 | for a position within 0-100 % and an image that fits, x is the free width times the position fraction |
| Patterns.CustomImageEdgeCases | src/lib/svg-generator.ts:389-400 | position 100 puts the image flush right; a missing position or 0 centres it |
| Patterns.CustomSvgTranslateNonNegative | src/lib/svg-generator.ts:264-283 | custom SVG tiles cover the area at opacity 0.8 and are never translated to negative coordinates |
| Patterns.BackgroundIffCenterOrCustom | src/lib/svg-generator.ts:306-312 | a transparent background rectangle comes first in a pattern exactly when the mode is center or custom; an image pattern ends with its image |
| Patterns.RouteFor | src/lib/svg-generator.ts:172-223 | a lower-cased type containing "svg" goes to the SVG route, else "image" to the raster route, else "pdf" to the document route, else nothing |
| Patterns.NotContainsFirst | src/lib/svg-generator.ts:187-211 | a needle whose first character is absent is not included |
| Patterns.NotContainsPair | src/lib/svg-generator.ts:187-211 | a needle whose first two characters never appear side by side is not included |
| Patterns.RouteOfLowerCase | src/lib/svg-generator.ts:172-223 | for a lower-case type the route follows the three `includes` tests in order |
| Patterns.KnownTypesRoute | src/lib/svg-generator.ts:187-223 | image/svg+xml takes the SVG route though it also contains "image"; PNG and JPEG take the raster route, PDF the document route, plain text none |
| Patterns.PatternId | src/lib/svg-generator.ts:173 | the pattern id is "pattern-" followed by the timestamp |
| Patterns.PatternForFile | src/lib/svg-generator.ts:165-232 | a pattern is produced exactly when the file has a type with a route and its reader returns non-empty content; it carries the pattern id; an SVG type yields the vector pattern of the parsed content, and an image or PDF type yields the image pattern whose image is the read payload |
| Patterns.SvgFileGivesVectorPattern | src/lib/svg-generator.ts:187-198 | an SVG upload with content yields the SVG pattern, which holds no image element |
| Drawing.DimensionLabel | src/lib/svg-generator.ts:5-11 | a dimension label carries the length in cm and the inches, one decimal and within 0.05 of cm × 0.393701 |
| Drawing.BodyFill | src/lib/svg-generator.ts:105-112 | a solid colour fills with its hex value; a pattern fills light grey until a pattern replaces it |
| Drawing.BodyOutlineGeometry | src/lib/svg-generator.ts:64-103 | the top edge is centred over the bottom edge, the path closes at its start, the bottom edge spans the bottom width at the depth of both sections, the shoulder control points sit 10 % of the width difference out at 0.8 of the upper height, and the outline is mirror-symmetric |
| Drawing.BodyCornersOnCanvas | src/lib/svg-generator.ts:26-28 | for non-negative sizes whose widths differ by at most 60 cm and whose upper and lower heights add up to at most the total height plus 40 cm, every corner of the outline (the end point of each segment) lies on the canvas |
| Drawing.StrapsAttachToBody | src/lib/svg-generator.ts:965-1013 | the neck strap joins the two top corners and peaks 25 cm above; each waist strap starts at a waist corner and runs outwards along the waist line for `waistStrap` |
| Drawing.LeftWaistStrapLeavesCanvas | src/lib/svg-generator.ts:993-1003 | the left waist strap runs off the canvas exactly when it is longer than 30 cm; with the default design it ends at x = -200 |
| Drawing.PocketPlacement | src/lib/svg-generator.ts:1015-1044 | the fixed 28 × 16 cm pocket is centred, its top is 30 % down the lower section, its divider halves it, and it lies inside the lower section exactly when the apron is at least 28 cm wide and 70 % of the lower height is at least 16 cm |
| Drawing.DimensionMarksShape | src/lib/svg-generator.ts:1098-1134 | a dimension mark is the line, two arrowheads whose tips are its ends and which point back along it, and its label above the middle or rotated -90° to the left |
| Drawing.DimensionLinesMatchBody | src/lib/svg-generator.ts:1046-1096 | the width lines span the body's edges, the upper-height line spans the upper section, and the total and lower lines end at the total height, which is within 0.05 cm of the hem when the heights are derived |
| Drawing.DimensionPrimitivesInOrder | src/lib/svg-generator.ts:1046-1096 | the five dimension lines are top width, bottom width, total, upper and lower height, in that order |
| Drawing.SolidLegend | src/lib/svg-generator.ts:1136-1174 | the legend is the colour name, followed by the Pantone code in brackets exactly when one is present |
| Drawing.ModeText | src/lib/svg-generator.ts:662-682 | a known mode shows its Chinese label; any other mode is shown as written |
| Drawing.ModeTextDistinct | src/lib/svg-generator.ts:670-676 | the four modes have four different labels |
| Drawing.BodyFillResolution | src/lib/svg-generator.ts:114-163 | a solid body has no definition; a patterned body is filled with `url(#pattern-…)` and gets one definition exactly when a pattern is produced, else it stays grey with two placeholder texts |
| Drawing.TempFileTakesPrecedence | src/lib/svg-generator.ts:118 | drawing with a temporary file is drawing with that file as the configured file |
| Drawing.NoFileGivesPlaceholder | src/lib/svg-generator.ts:114-163 | a pattern without any file draws the grey body and the name and mode texts at its centre |
| Drawing.RenderLayout | src/lib/svg-generator.ts:24-62 | the canvas is (max width + 60) × 4 by (total height + 80) × 4; the white background comes first, the body second, and the centred size summary last |
| Drawing.Generator.constructor | src/lib/svg-generator.ts:13-22 | a generator starts with the design, the temporary file and an empty document |
| Drawing.Generator.Generate | src/lib/svg-generator.ts:24-62 | in a browser the result is the rendered document; otherwise nothing |
| Drawing.Generator.DrawApronBody | src/lib/svg-generator.ts:64-103 | the body layer's definitions and elements are appended |
| Drawing.Generator.ApplyPatternToApron | src/lib/svg-generator.ts:114-163 | when a pattern is produced it is added and the body's fill points to it; otherwise the placeholder texts are appended |
| Drawing.Generator.CreatePatternFromFile | src/lib/svg-generator.ts:165-232 | returns the id and adds the pattern exactly when the file yields one; nothing else changes |
| Drawing.Generator.CreateSvgPattern | src/lib/svg-generator.ts:234-353 | adds the SVG pattern definition, children copied in order, and returns its id |
| Drawing.Generator.CreateImagePattern | src/lib/svg-generator.ts:355-460 | adds the image pattern definition and returns its id |
| Drawing.Generator.AddPatternText | src/lib/svg-generator.ts:662-682 | appends the name and mode texts |
| Drawing.Generator.DrawStraps | src/lib/svg-generator.ts:965-1013 | appends the neck strap and the two waist straps |
| Drawing.Generator.DrawPocket | src/lib/svg-generator.ts:1015-1044 | appends the pocket outline and its divider |
| Drawing.Generator.AddDimensions | src/lib/svg-generator.ts:1046-1096 | appends the five dimension marks |
| Drawing.Generator.AddDimensionLine | src/lib/svg-generator.ts:1098-1134 | appends one line, two arrowheads and a label |
| Drawing.Generator.AddColorSpecification | src/lib/svg-generator.ts:1136-1174 | appends the solid swatch and legend, or the pattern name and mode |
| Drawing.Generator.AddTitle | src/lib/svg-generator.ts:1176-1190 | appends the title and the centred size summary |
| Export.ExportSvg | src/lib/export-utils.ts:6-9 | the SVG is saved unchanged, under `apron-design.svg` by default |
| Export.ColorSpecLines | src/lib/export-utils.ts:27-46 | the colour specification has three lines, plus a Pantone line exactly when a solid colour has a code, or a file line exactly when a pattern has a file |
| Export.PatternEntryIsNew | src/lib/export-utils.ts:86-91 | the pattern entry never overwrites one of the three fixed entries |
| Export.BundleEntries | src/lib/export-utils.ts:11-96 | the bundle always holds the SVG unchanged, the manifest (design, date, version 2.0, fixed specification) and the readme (design, colour specification lines, export time); it holds `pattern-files/<name>` exactly when a pattern has a file |
| Export.RestoredDesignBundlesNoFile | src/store/apron-design.ts:120-132 | a design restored from storage bundles only the three fixed entries |
| Export.SvgExportMatchesBundle | src/lib/export-utils.ts:15 | the bundle's drawing is what the SVG export saves |
| Export.ExportDesignPackage | src/lib/export-utils.ts:11-96 | the entries are added one by one and the result is the bundle, saved under `apron-design-package.zip` by default |
| Export.PngOutcomeCases | src/lib/export-utils.ts:98-147 | the PNG export succeeds exactly when the image loads, a context exists and a blob is made, saving an image `scale` times the size; each failure has its own error, load first |
| Export.DefaultPngDoublesSize | src/lib/export-utils.ts:98 | by default the PNG is `apron-design.png` at twice the size |
| Export.MeasureOf | src/lib/export-utils.ts:150 | each summary measure is the cm value and its inches with one decimal, within 0.05 |
| Export.SummaryOf | src/lib/export-utils.ts:149-169 | the summary lists each dimension and strap in cm unchanged and in inches to one decimal, within 0.05 of cm × 0.393701, and names the solid colour or the pattern |
| Export.DefaultSummaryInches | src/lib/export-utils.ts:149-169 | for the default design the inches are 17.7, 23.6 and 27.6 |
| Editor.AcceptedTypesAreRoutable | src/app/page.tsx:117-133 | every whitelisted type has a drawing route, and only SVG takes the vector route |
| Editor.WhitelistIsExact | src/app/page.tsx:120-121 | the whitelist is an exact match: plain text and an upper-case `IMAGE/PNG` are refused |
| Editor.FileStem | src/app/page.tsx:129 | the stem is a prefix of the name |
| Editor.FileStemOfExtension | src/app/page.tsx:129 | a base, a dot and an extension without `.` or `/` give back the base; a name without a dot is kept |
| Editor.FileStemKeepsWhole | src/app/page.tsx:129 | a name ending in a dot, or with a `/` after its last dot, is kept whole |
| Editor.PatternUpdated | src/app/page.tsx:85-96 | the pattern gets the file and its stem as name; a solid colour is first replaced by the default tiled pattern |
| Editor.HandleFileUpload | src/app/page.tsx:117-133 | no file or a type off the whitelist changes nothing; otherwise the file becomes the temporary file and the pattern's file and name |
| Editor.AcceptedUploadIsDrawn | src/app/page.tsx:117-133 | after an accepted upload the drawing uses that file and has a route for it |
| Editor.HandleInlinePatternInput | src/app/page.tsx:513-524 | the inline input takes any file as the temporary file; a pattern gets its file and name, a solid colour stays as it is |
| Editor.InlineInputSkipsWhitelist | src/app/page.tsx:513-524 | a plain-text file passes the inline input, and the drawing then shows the placeholder |
| Editor.ColorConfigForType | src/app/page.tsx:98-115 | switching to solid gives the default coral; switching to pattern gives a tiled pattern without file |
| Editor.HandleColorTypeChange | src/app/page.tsx:98-115 | the colour type is set and the colour configuration replaced; the temporary file stays |
| Editor.SwitchToPatternKeepsUpload | src/app/page.tsx:108-113 | the new pattern has no file, yet the drawing still uses an earlier temporary file |
| Editor.FieldUpdate | src/app/page.tsx:362-409 | each input updates exactly its own field |
| Editor.FieldValue | src/app/page.tsx:362-409 | the value written is the number when non-zero, the field's default (30, 60, 70, 25, 40) otherwise, and never 0 |
| Editor.ClearedTotalHeight | src/app/page.tsx:384 | clearing the total height gives 70 cm with heights 23.1 and 46.9 |
| Editor.WaistInputBreaksRule | src/app/page.tsx:395 | setting the upper height directly keeps the total and the lower height, so any value but the derived one leaves the 33 % rule |
| Editor.WithPocketMode | src/app/page.tsx:635-663 | the mode is set; the default record is added only for the selected mode and only when it is missing; other records are kept |
| Editor.SelectPocketMode | src/app/page.tsx:635-663 | the handler's in-place updates produce `WithPocketMode` |
| Editor.PocketModeSelection | src/app/page.tsx:635-663 | a selected mode other than none always has a record; selecting a mode twice is selecting it once; none changes only the mode |
| Editor.SingleDoubleSingleKeepsRecord | src/app/page.tsx:641-649 | going single, double and back to single keeps the single record as it was, and the double record stays populated |
| Editor.CenteredOffsetX | src/app/page.tsx:285-297 | the offset is non-negative, has one decimal, and is within 0.05 of max(0, (apron − logo)/2) |
| Editor.CenterLogoHorizontally | src/app/page.tsx:285-297 | only the horizontal offset changes, to the centred offset |
| Editor.CenteringBalancesMargins | src/app/page.tsx:285-297 | a logo that fits has margins differing by at most 0.1 cm; a wider logo sits at 0; centring is idempotent |
| Editor.LogoUploadOutcome | src/app/page.tsx:135-178 | no file, a refused type and an unreadable raster image each have their own outcome; otherwise the logo gets the file and stem, with the image size exactly for raster types |
| Editor.LogoTypesBySize | src/app/page.tsx:145 | SVG and PDF logos are taken without reading a size; PNG and JPEG logos need the image to load |
| Editor.InlineLogoInput | src/app/page.tsx:1034-1043 | the inline logo input takes any file and changes only the logo's file |
| Editor.InlineLogoInputSkipsChecks | src/app/page.tsx:1034-1043 | a plain-text logo refused by the upload handler is taken by the inline input, keeping the old name |
| Editor.DragTelescopes | src/app/page.tsx:200-207 | moves without a drag change nothing; a drag's moves add up to the distance from the drag start to the last pointer position |
| Editor.SecondaryButtonDoesNotPan | src/app/page.tsx:195-200 | a drag begun with any button but the primary moves nothing |
| Editor.ZoomStaysInRange | src/app/page.tsx:215-221 | zooming keeps the scale within [0.3, 3]; in then out returns to the start exactly when it is at most 2.8, out then in exactly when it is at least 0.5 |
| Editor.Preview.constructor | src/app/page.tsx:46-49 | the preview starts at scale 1, no translation, not dragging |
| Editor.Preview.ZoomIn | src/app/page.tsx:215-217 | the scale becomes min(s + 0.2, 3); the pan state is kept |
| Editor.Preview.ZoomOut | src/app/page.tsx:219-221 | the scale becomes max(s − 0.2, 0.3); the pan state is kept |
| Editor.Preview.ResetTransform | src/app/page.tsx:223-226 | scale 1 and no translation |
| Editor.Preview.MouseDown | src/app/page.tsx:195-200 | only the primary button starts a drag at the pointer |
| Editor.Preview.MouseMove | src/app/page.tsx:202-209 | while dragging, the translation grows by the pointer's movement and the pointer becomes the new start |
| Editor.Preview.MouseUp | src/app/page.tsx:211-213 | the drag ends; nothing else changes |

## Left out

- Drawing.BodyCornersOnCanvas: covers the corners only, not the control points of the two curves. The upper and lower heights can be typed in directly, so the page can break its height condition: total 70, upper 50 and lower 80 put the hem at y = 680 on a canvas 600 high.
- The PDF path's conversion to an image (pdfjs), FileReader, DOMParser and `cloneNode`: their results are the `Decoding` parameter. The PDF canvas placeholders are also out.
- svg.js document construction and serialisation. The model builds an ordered list of primitives and pattern definitions, not SVG text.
- JSZip compression, `saveAs`, the `Image`/canvas/`toBlob` machinery and `URL.createObjectURL`: their outcomes are the `Browser` parameter.
- Number formatting (`toFixed`, template literals) and binary floating point: lengths are exact reals, and one-decimal values come from `Round1`. `toFixed` rounds the binary double, which can differ from `Round1` at exact halves. NaN from non-numeric text is modelled as a missing number (`None`); an empty input gives 0.
- `Date.now()` in pattern ids and the export clock readings are opaque string parameters.
- The manifest's JSON text: `JSON.stringify` of a `File` gives `{}`, and the model keeps the design value instead.
- The readme text of the bundle beyond its colour-specification lines.
- Dead and debug code: `createTestPattern`, `addFileToPatternSync`, `addFileToPattern`, the PDF placeholder drawers, the delayed DOM check, `calculateLogoMetrics`, and the page's `handleSolidColorUpdate`, which computes a configuration and never commits it.
- The zustand `persist` storage itself, beyond the `partialize` projection.
- React state batching, toasts, rendering, the loading screen and the preview effect's race between renders.
- Drawing.Generator.CreateSvgPattern: an exception inside it (the source then returns an empty id) is not modelled.
- Drawing.Generator.CreateImagePattern: an exception inside it is not modelled.
- Export.PngOutcomeCases: the scale is a natural number, so a fractional scale and the canvas's truncation of its size are not modelled.
- Drawing.ModeText: a repeat mode named like a built-in object key (for example `constructor`) would make the lookup return that property; the model treats every unknown mode as shown as written.
- Editor.HandleInlinePatternInput: under a solid colour the source adds stray `file` and `patternName` keys to the solid configuration; the model keeps the solid configuration as the drawing sees it.
- Editor.HandleFileUpload: the page's generator call passes a third argument (the logo's temporary file), which the generator ignores, so it is not part of the model.
- Editor.LogoUploadOutcome: the logo record and the logo's temporary file are not held by the store, so the outcome is a value and not a store update.
- Editor.WithPocketMode: the pocket record is not held by the store either, for the same reason.
