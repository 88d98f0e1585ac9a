/**
 * Iframe sizing for embedded résumés: the container size clamped to a minimum and
 * maximum, optionally adjusted to an aspect ratio, and the per-embedding options.
 * Numbers are reals; floating-point rounding and NaN are not modelled.
 */
module IframeSizing {
  import opened Wrappers

  /** The caller's options; `None` is an omitted field. */
  datatype SizingOptions = SizingOptions(
    responsive: Option<bool>,
    minWidth: Option<real>,
    minHeight: Option<real>,
    maxWidth: Option<real>,
    maxHeight: Option<real>,
    aspectRatio: Option<real>)

  const NoOptions: SizingOptions := SizingOptions(None, None, None, None, None, None)

  /** The options after the destructuring defaults; an absent aspect ratio stays absent. */
  datatype Settings = Settings(
    responsive: bool, minWidth: real, minHeight: real, maxWidth: real, maxHeight: real, aspectRatio: Option<real>)

  function Resolve(o: SizingOptions): (s: Settings)
    ensures o.responsive.None? ==> s.responsive
    ensures o.minWidth.None? ==> s.minWidth == 320.0
    ensures o.minHeight.None? ==> s.minHeight == 400.0
    ensures o.maxWidth.None? ==> s.maxWidth == 1200.0
    ensures o.maxHeight.None? ==> s.maxHeight == 1600.0
    ensures o.responsive.Some? ==> s.responsive == o.responsive.value
    ensures o.minWidth.Some? ==> s.minWidth == o.minWidth.value
    ensures o.minHeight.Some? ==> s.minHeight == o.minHeight.value
    ensures o.maxWidth.Some? ==> s.maxWidth == o.maxWidth.value
    ensures o.maxHeight.Some? ==> s.maxHeight == o.maxHeight.value
    ensures s.aspectRatio == o.aspectRatio
  {
    Settings(
      o.responsive.GetOr(true),
      o.minWidth.GetOr(320.0),
      o.minHeight.GetOr(400.0),
      o.maxWidth.GetOr(1200.0),
      o.maxHeight.GetOr(1600.0),
      o.aspectRatio)
  }

  datatype Dimensions = Dimensions(width: real, height: real)

  function Min(a: real, b: real): real {
    if a <= b then a else b
  }

  function Max(a: real, b: real): real {
    if a >= b then a else b
  }

  /** `Math.max(Math.min(x, hi), lo)`: the lower bound wins when the bounds cross. */
  function Clamp(x: real, lo: real, hi: real): (r: real)
    ensures r >= lo
    ensures lo <= hi ==> r <= hi
    ensures lo <= x <= hi ==> r == x
  {
    Max(Min(x, hi), lo)
  }

  /** A number used as a condition: every ratio except 0 is truthy. */
  predicate HasRatio(ar: Option<real>) {
    ar.Some? && ar.value != 0.0
  }

  /**
   * The size for a container of `containerWidth` × `containerHeight`: the clamped
   * container size, then, with a ratio, the height derived from the width when it
   * fits its bounds, else the width derived from the height and clamped.
   */
  function Calculate(containerWidth: real, containerHeight: real, options: SizingOptions): (r: Dimensions)
    ensures !Resolve(options).responsive ==> r == Dimensions(Resolve(options).maxWidth, Resolve(options).maxHeight)
    ensures var s := Resolve(options);
      s.responsive && s.minWidth <= s.maxWidth && s.minHeight <= s.maxHeight ==>
        s.minWidth <= r.width <= s.maxWidth && s.minHeight <= r.height <= s.maxHeight
  {
    var s := Resolve(options);
    if !s.responsive then Dimensions(s.maxWidth, s.maxHeight)
    else
      var width := Clamp(containerWidth, s.minWidth, s.maxWidth);
      var height := Clamp(containerHeight, s.minHeight, s.maxHeight);
      if HasRatio(s.aspectRatio) then Fit(width, height, s.aspectRatio.value, s)
      else Dimensions(width, height)
  }

  /**
   * The aspect-ratio step: derive the height from the width when it fits its
   * bounds, else derive the width from the height and clamp it.
   */
  function Fit(width: real, height: real, ar: real, s: Settings): (r: Dimensions)
    requires ar != 0.0
  {
    var calculatedHeight := width / ar;
    if calculatedHeight <= s.maxHeight && calculatedHeight >= s.minHeight then Dimensions(width, calculatedHeight)
    else Dimensions(Clamp(height * ar, s.minWidth, s.maxWidth), height)
  }

  /** Without the responsive flag the container is ignored. */
  lemma FixedIgnoresContainer(w1: real, h1: real, w2: real, h2: real, options: SizingOptions)
    requires options.responsive == Some(false)
    ensures Calculate(w1, h1, options) == Calculate(w2, h2, options)
  {
  }

  /** Without a usable ratio the result is the container size clamped on each axis. */
  lemma NoRatioClampsOnly(containerWidth: real, containerHeight: real, options: SizingOptions)
    requires Resolve(options).responsive && !HasRatio(options.aspectRatio)
    ensures var s := Resolve(options);
      Calculate(containerWidth, containerHeight, options)
        == Dimensions(Clamp(containerWidth, s.minWidth, s.maxWidth), Clamp(containerHeight, s.minHeight, s.maxHeight))
  {
  }

  /** When the derived height fits its bounds, the width is kept and the ratio holds exactly. */
  lemma HeightFollowsWidth(width: real, height: real, ar: real, s: Settings)
    requires ar != 0.0 && s.minHeight <= width / ar <= s.maxHeight
    ensures Fit(width, height, ar, s).width == width
    ensures Fit(width, height, ar, s).height * ar == width
  {
  }

  /** Otherwise the height is kept; the ratio holds unless the derived width had to be clamped. */
  lemma WidthFollowsHeight(width: real, height: real, ar: real, s: Settings)
    requires ar != 0.0 && !(s.minHeight <= width / ar <= s.maxHeight)
    ensures Fit(width, height, ar, s).height == height
    ensures Fit(width, height, ar, s).width == Clamp(height * ar, s.minWidth, s.maxWidth)
    ensures s.minWidth <= height * ar <= s.maxWidth ==> Fit(width, height, ar, s).width == height * ar
  {
  }

  /** With a usable ratio the responsive result is the clamped container size passed through the ratio step. */
  lemma RatioFitsClamped(containerWidth: real, containerHeight: real, options: SizingOptions)
    requires Resolve(options).responsive && HasRatio(options.aspectRatio)
    ensures var s := Resolve(options);
      Calculate(containerWidth, containerHeight, options)
        == Fit(Clamp(containerWidth, s.minWidth, s.maxWidth), Clamp(containerHeight, s.minHeight, s.maxHeight),
               options.aspectRatio.value, s)
  {
  }

  /**
   * The embedding presets; an unknown kind gets the defaults spelled out. Only the
   * preview is fixed-size, only the external embedding keeps a ratio, and every preset
   * gives all four bounds with each minimum below its maximum.
   */
  function EmbeddingConfiguration(embeddingType: string): (r: SizingOptions)
    ensures r.responsive == Some(embeddingType != "preview")
    ensures r.aspectRatio == (if embeddingType == "external" then Some(0.75) else None)
    ensures r.minWidth.Some? && r.maxWidth.Some? && r.minWidth.value < r.maxWidth.value
    ensures r.minHeight.Some? && r.maxHeight.Some? && r.minHeight.value < r.maxHeight.value
  {
    if embeddingType == "external" then
      SizingOptions(Some(true), Some(280.0), Some(350.0), Some(800.0), Some(1000.0), Some(0.75))
    else if embeddingType == "internal" then
      SizingOptions(Some(true), Some(400.0), Some(500.0), Some(1200.0), Some(1600.0), None)
    else if embeddingType == "preview" then
      SizingOptions(Some(false), Some(210.0), Some(297.0), Some(794.0), Some(1123.0), None)
    else
      SizingOptions(Some(true), Some(320.0), Some(400.0), Some(1200.0), Some(1600.0), None)
  }

  /** The preview is always A4 at 96 DPI, whatever the container. */
  lemma PreviewIsA4(containerWidth: real, containerHeight: real)
    ensures Calculate(containerWidth, containerHeight, EmbeddingConfiguration("preview")) == Dimensions(794.0, 1123.0)
  {
  }

  /** An unknown embedding kind sizes exactly like no options at all. */
  lemma UnknownKindIsDefault(embeddingType: string, containerWidth: real, containerHeight: real)
    requires embeddingType !in {"external", "internal", "preview"}
    ensures Calculate(containerWidth, containerHeight, EmbeddingConfiguration(embeddingType))
         == Calculate(containerWidth, containerHeight, NoOptions)
  {
  }

  /** The external embedding stays within 280..800 × 350..1000 */
  lemma ExternalBounds(containerWidth: real, containerHeight: real)
    ensures var r := Calculate(containerWidth, containerHeight, EmbeddingConfiguration("external"));
      && 280.0 <= r.width <= 800.0
      && 350.0 <= r.height <= 1000.0
  {
  }
}
