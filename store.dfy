/** The design store (`src/store/apron-design.ts`): the apron's parameters, the
    unpersisted upload held beside them, the rule that derives the upper and lower
    heights from the total height, and the projection that is written to storage. */
module Store {
  import opened Base

  /** An uploaded file as the program sees it: its name, its MIME type (`file.type`,
      possibly empty) and its size in bytes. The bytes themselves are not modelled. */
  datatype FileRef = FileRef(name: string, mimeType: string, size: nat)

  /** `SolidColorConfig | PatternConfig`. The repeat mode is kept as the string the
      configuration holds, because the drawing code has a branch for unknown modes. */
  datatype ColorConfig =
    | Solid(colorName: string, pantoneCode: Option<string>, hexValue: string)
    | Pattern(file: Option<FileRef>, patternName: string, repeatMode: string,
              customSize: Option<real>, customPositionX: Option<real>, customPositionY: Option<real>)

  /** All lengths are in centimetres. */
  datatype ApronDesign = ApronDesign(
    topWidth: real,
    bottomWidth: real,
    totalHeight: real,
    waistHeight: real,
    bottomHeight: real,
    colorConfig: ColorConfig,
    neckStrap: real,
    waistStrap: real)

  /** The `updates` object of `updateDesign`: a field is `Some` when the object has that
      key. The declared type omits the two derived heights, but the editor's numeric
      inputs pass them anyway, so they are modelled too. */
  datatype DesignUpdate = DesignUpdate(
    topWidth: Option<real>,
    bottomWidth: Option<real>,
    totalHeight: Option<real>,
    waistHeight: Option<real>,
    bottomHeight: Option<real>,
    colorConfig: Option<ColorConfig>,
    neckStrap: Option<real>,
    waistStrap: Option<real>)

  const NoUpdates: DesignUpdate := DesignUpdate(None, None, None, None, None, None, None, None)

  // ---------------------------------------------------------------------------
  // Derived heights

  /** Upper-section height: 33 % of the total, rounded to one decimal. */
  function WaistHeightFor(totalHeight: real): real {
    Round1(totalHeight * 0.33)
  }

  /** Lower-section height: the rest of the total, rounded to one decimal. */
  function BottomHeightFor(totalHeight: real): real {
    Round1(totalHeight - WaistHeightFor(totalHeight))
  }

  /** The two derived heights are what the rule computes from the total height. */
  predicate HeightsDerived(d: ApronDesign) {
    d.waistHeight == WaistHeightFor(d.totalHeight) && d.bottomHeight == BottomHeightFor(d.totalHeight)
  }

  /** The derived heights add up to the total height to within half a millimetre, and
      the upper height is within half a millimetre of 33 % of the total. */
  lemma DerivedHeightsSum(totalHeight: real)
    ensures Abs(WaistHeightFor(totalHeight) + BottomHeightFor(totalHeight) - totalHeight) <= 0.05
    ensures Abs(WaistHeightFor(totalHeight) - totalHeight * 0.33) <= 0.05
    ensures IsTenth(WaistHeightFor(totalHeight)) && IsTenth(BottomHeightFor(totalHeight))
  {
    var w := WaistHeightFor(totalHeight);
    assert totalHeight - w - 0.05 < Round1(totalHeight - w) <= totalHeight - w + 0.05;
  }

  /** A design whose heights follow the rule satisfies the sum bound. */
  lemma HeightsDerivedSum(d: ApronDesign)
    requires HeightsDerived(d)
    ensures Abs(d.waistHeight + d.bottomHeight - d.totalHeight) <= 0.05
  {
    DerivedHeightsSum(d.totalHeight);
  }

  // ---------------------------------------------------------------------------
  // Default design

  function DefaultColorConfig(): ColorConfig {
    Solid("珊瑚红", None, "#FF6B6B")
  }

  /** `defaultDesign`: 45 x 60 x 70 cm with the stored heights 23.1 and 46.9. */
  function DefaultDesign(): (d: ApronDesign)
    ensures d.topWidth == 45.0 && d.bottomWidth == 60.0 && d.totalHeight == 70.0
    ensures d.waistHeight == 23.1 && d.bottomHeight == 46.9
    ensures d.neckStrap == 50.0 && d.waistStrap == 80.0
    ensures d.colorConfig == DefaultColorConfig()
  {
    ApronDesign(45.0, 60.0, 70.0, 23.1, 46.9, DefaultColorConfig(), 50.0, 80.0)
  }

  /** The hand-written default heights agree with the derivation rule. */
  lemma DefaultDesignHeightsDerived()
    ensures HeightsDerived(DefaultDesign())
  {
    assert (10.0 * (70.0 * 0.33) + 0.5).Floor == 231;
    assert WaistHeightFor(70.0) == 23.1;
    assert (10.0 * (70.0 - 23.1) + 0.5).Floor == 469;
  }

  // ---------------------------------------------------------------------------
  // Store actions as functions of the old state

  function Pick<T>(update: Option<T>, current: T): T {
    if update.Some? then update.value else current
  }

  /** `{ ...design, ...updates }`: every key present in `updates` overrides. */
  function Merge(d: ApronDesign, u: DesignUpdate): ApronDesign {
    ApronDesign(
      Pick(u.topWidth, d.topWidth),
      Pick(u.bottomWidth, d.bottomWidth),
      Pick(u.totalHeight, d.totalHeight),
      Pick(u.waistHeight, d.waistHeight),
      Pick(u.bottomHeight, d.bottomHeight),
      Pick(u.colorConfig, d.colorConfig),
      Pick(u.neckStrap, d.neckStrap),
      Pick(u.waistStrap, d.waistStrap))
  }

  /** The design `updateDesign` produces: the merge, with both derived heights
      recomputed from the new total when (and only when) `updates` has `totalHeight`. */
  function ApplyUpdates(d: ApronDesign, u: DesignUpdate): (r: ApronDesign)
    ensures r.topWidth == Pick(u.topWidth, d.topWidth)
    ensures r.bottomWidth == Pick(u.bottomWidth, d.bottomWidth)
    ensures r.totalHeight == Pick(u.totalHeight, d.totalHeight)
    ensures r.colorConfig == Pick(u.colorConfig, d.colorConfig)
    ensures r.neckStrap == Pick(u.neckStrap, d.neckStrap)
    ensures r.waistStrap == Pick(u.waistStrap, d.waistStrap)
    ensures u.totalHeight.Some? ==> HeightsDerived(r)
    ensures u.totalHeight.None? ==>
      r.waistHeight == Pick(u.waistHeight, d.waistHeight) && r.bottomHeight == Pick(u.bottomHeight, d.bottomHeight)
  {
    var merged := Merge(d, u);
    if u.totalHeight.Some? then
      merged.(waistHeight := WaistHeightFor(merged.totalHeight), bottomHeight := BottomHeightFor(merged.totalHeight))
    else merged
  }

  /** An empty update leaves the design as it is. */
  lemma ApplyNoUpdates(d: ApronDesign)
    ensures ApplyUpdates(d, NoUpdates) == d
  {
  }

  /** After any update that sets the total height, the derived heights add up to it to
      within half a millimetre. */
  lemma UpdateKeepsHeightSum(d: ApronDesign, u: DesignUpdate)
    requires u.totalHeight.Some?
    ensures Abs(ApplyUpdates(d, u).waistHeight + ApplyUpdates(d, u).bottomHeight - u.totalHeight.value) <= 0.05
  {
    HeightsDerivedSum(ApplyUpdates(d, u));
  }

  /** `calculateDimensions`: only the two derived heights change, and they follow the rule. */
  function Recalculated(d: ApronDesign): (r: ApronDesign)
    ensures HeightsDerived(r)
    ensures r.(waistHeight := d.waistHeight, bottomHeight := d.bottomHeight) == d
  {
    d.(waistHeight := WaistHeightFor(d.totalHeight), bottomHeight := BottomHeightFor(d.totalHeight))
  }

  /** Recalculating twice is recalculating once, and a design that already follows the
      rule is a fixed point. */
  lemma RecalculatedIdempotent(d: ApronDesign)
    ensures Recalculated(Recalculated(d)) == Recalculated(d)
    ensures HeightsDerived(d) ==> Recalculated(d) == d
  {
  }

  // ---------------------------------------------------------------------------
  // Persistence projection

  /** What `partialize` hands to storage: the design alone, so `tempFile` has no place
      in it. */
  datatype PersistedState = PersistedState(design: ApronDesign)

  /** `partialize`: the design with a pattern's `file` replaced by null, because a
      `File` cannot be serialised; a solid colour configuration is kept as it is. */
  function Partialize(design: ApronDesign, tempFile: Option<FileRef>): (p: PersistedState)
    ensures p.design.(colorConfig := design.colorConfig) == design
    ensures design.colorConfig.Solid? ==> p.design.colorConfig == design.colorConfig
    ensures design.colorConfig.Pattern? ==>
      p.design.colorConfig.Pattern? && p.design.colorConfig.file.None? &&
      p.design.colorConfig.(file := design.colorConfig.file) == design.colorConfig
  {
    PersistedState(design.(colorConfig :=
      if design.colorConfig.Pattern? then design.colorConfig.(file := None) else design.colorConfig))
  }

  /** The persisted value does not depend on the temporary file, and persisting a
      restored value again changes nothing. */
  lemma PartializeStable(design: ApronDesign, f: Option<FileRef>, g: Option<FileRef>)
    ensures Partialize(design, f) == Partialize(design, g)
    ensures Partialize(Partialize(design, f).design, g) == Partialize(design, f)
  {
  }

  // ---------------------------------------------------------------------------
  // The store object

  /** The zustand store: `design` and `tempFile`, replaced by each action via `set`. */
  class DesignStore {
    var design: ApronDesign
    var tempFile: Option<FileRef>

    /** The store's initial state. */
    constructor ()
      ensures design == DefaultDesign() && tempFile == None
    {
      design := DefaultDesign();
      tempFile := None;
    }

    /** `updateDesign(updates)`. */
    method UpdateDesign(updates: DesignUpdate)
      modifies this
      ensures design == ApplyUpdates(old(design), updates)
      ensures tempFile == old(tempFile)
    {
      var newDesign := Merge(design, updates);
      if updates.totalHeight.Some? {
        var newWaistHeight := Round1(newDesign.totalHeight * 0.33);
        var newBottomHeight := Round1(newDesign.totalHeight - newWaistHeight);
        newDesign := newDesign.(waistHeight := newWaistHeight);
        newDesign := newDesign.(bottomHeight := newBottomHeight);
      }
      design := newDesign;
    }

    /** `updateColorConfig(colorConfig)`: replaces the colour configuration and nothing else. */
    method UpdateColorConfig(colorConfig: ColorConfig)
      modifies this
      ensures design == old(design).(colorConfig := colorConfig)
      ensures tempFile == old(tempFile)
    {
      design := design.(colorConfig := colorConfig);
    }

    /** `calculateDimensions()`. */
    method CalculateDimensions()
      modifies this
      ensures design == Recalculated(old(design))
      ensures tempFile == old(tempFile)
    {
      var newWaistHeight := Round1(design.totalHeight * 0.33);
      var newBottomHeight := Round1(design.totalHeight - newWaistHeight);
      design := design.(waistHeight := newWaistHeight, bottomHeight := newBottomHeight);
    }

    /** `setTempFile(file)`: changes only the temporary file. */
    method SetTempFile(file: Option<FileRef>)
      modifies this
      ensures tempFile == file
      ensures design == old(design)
    {
      tempFile := file;
    }

    /** `resetDesign()`: back to the default design with no temporary file. */
    method ResetDesign()
      modifies this
      ensures design == DefaultDesign() && tempFile == None
    {
      design := DefaultDesign();
      tempFile := None;
    }
  }
}
