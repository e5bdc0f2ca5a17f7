/**
 * Size arithmetic of the flick button: from the measured sizes of the two
 * labels to the shared label size, the thumb width and the size of the
 * scroll viewport. The source multiplies by double constants and truncates
 * with an (int) cast; here the constants are exact reals and the cast is
 * `.Floor`, which agrees with the cast on the non-negative values involved.
 */
module FlickGeometry {

  /** Least height of a label (MIN_HEIGHT). */
  const MinHeight: nat := 50

  /** Label width per unit of height that keeps the artwork's aspect ratio. */
  const MinWidthTextMultiplier: real := 57.0 / 29.0

  /** Thumb width per unit of label width. */
  const ThumbWidthMultiplier: real := 40.0 / 57.0

  /** Sizes the two labels measured to when they wrap their text. */
  datatype Measured = Measured(onWidth: nat, onHeight: nat, offWidth: nat, offHeight: nat)

  /**
   * The layout sizes the view hands to its children: both labels get
   * labelWidth x labelHeight, the thumb thumbWidth x labelHeight, and the
   * scroll viewport scrollWidth x scrollHeight.
   */
  datatype Dimensions = Dimensions(
    labelWidth: nat,
    labelHeight: nat,
    thumbWidth: nat,
    scrollWidth: nat,
    scrollHeight: nat)

  function Max(a: nat, b: nat): (m: nat)
    ensures m >= a && m >= b
    ensures m == a || m == b
  {
    if a < b then b else a
  }

  /** (int)(MIN_WIDTH_TEXT_MULTIPLIER * h): the narrowest label for height h. */
  function MinWidthFor(h: nat): (w: nat)
    ensures 29 * w <= 57 * h < 29 * (w + 1)
  {
    var exact := MinWidthTextMultiplier * (h as real);
    assert 29.0 * exact == 57.0 * (h as real);
    exact.Floor
  }

  /** (int)(w * THUMB_WIDTH_MULTIPLIER): the thumb width for label width w. */
  function ThumbWidthFor(w: nat): (t: nat)
    ensures 57 * t <= 40 * w < 57 * (t + 1)
    ensures t <= w
  {
    var exact := (w as real) * ThumbWidthMultiplier;
    assert 57.0 * exact == 40.0 * (w as real);
    exact.Floor
  }

  /**
   * updateViewDimensions: the label width is the wider label, raised to the
   * truncated minimum width for the taller label's UNCLAMPED height; the
   * label height is the taller label raised to MinHeight; the thumb is a
   * truncated fraction of the label width; the viewport shows one label and
   * the thumb side by side.
   */
  function ComputeDimensions(m: Measured): (d: Dimensions)
    ensures d.labelWidth >= m.onWidth && d.labelWidth >= m.offWidth
    ensures 29 * (d.labelWidth + 1) > 57 * Max(m.onHeight, m.offHeight)
    ensures d.labelWidth == m.onWidth || d.labelWidth == m.offWidth
         || 29 * d.labelWidth <= 57 * Max(m.onHeight, m.offHeight)
    ensures d.labelHeight >= m.onHeight && d.labelHeight >= m.offHeight && d.labelHeight >= MinHeight
    ensures d.labelHeight == m.onHeight || d.labelHeight == m.offHeight || d.labelHeight == MinHeight
    ensures 57 * d.thumbWidth <= 40 * d.labelWidth < 57 * (d.thumbWidth + 1)
    ensures d.thumbWidth <= d.labelWidth
    ensures d.scrollWidth == d.labelWidth + d.thumbWidth
    ensures d.scrollHeight == d.labelHeight
  {
    var rawWidth := Max(m.onWidth, m.offWidth);
    var rawHeight := Max(m.onHeight, m.offHeight);
    var width := Max(rawWidth, MinWidthFor(rawHeight));
    var height := Max(rawHeight, MinHeight);
    var thumb := ThumbWidthFor(width);
    Dimensions(width, height, thumb, width + thumb, height)
  }

  /**
   * Labels at least MinHeight tall keep the artwork's aspect ratio: the
   * label width is at least the minimum width for the final label height.
   */
  lemma AspectKeptForTallLabels(m: Measured)
    requires Max(m.onHeight, m.offHeight) >= MinHeight
    ensures ComputeDimensions(m).labelWidth >= MinWidthFor(ComputeDimensions(m).labelHeight)
  {
  }

  /**
   * Because the minimum width is taken from the height before it is raised
   * to MinHeight, a single pass does not keep the aspect ratio for labels
   * measured shorter than MinHeight and narrower than its minimum width:
   * they get height MinHeight but stay narrower than MinHeight calls for.
   * Labels measured at 0x0, for one, give a 0-wide, 50-high label although
   * 50 calls for 98.
   */
  lemma AspectLostForShortLabels(m: Measured)
    requires Max(m.onHeight, m.offHeight) < MinHeight
    requires Max(m.onWidth, m.offWidth) < MinWidthFor(MinHeight)
    ensures ComputeDimensions(m).labelHeight == MinHeight
    ensures ComputeDimensions(m).labelWidth < MinWidthFor(MinHeight)
    ensures m == Measured(0, 0, 0, 0) ==> ComputeDimensions(m).labelWidth == 0 && MinWidthFor(MinHeight) == 98
  {
    var least := MinWidthFor(MinHeight);
    assert 29 * least <= 2850 < 29 * (least + 1);
    assert least == 98;
    var rawHeight := Max(m.onHeight, m.offHeight);
    var w := MinWidthFor(rawHeight);
    assert 29 * w <= 57 * rawHeight <= 57 * 49;
    assert w < least;
  }

  /**
   * The sizes both labels measure to on the next pass, when each is
   * measured at exactly the layout size the previous pass gave it.
   */
  function Remeasured(d: Dimensions): (m: Measured)
    ensures m.onWidth == m.offWidth == d.labelWidth
    ensures m.onHeight == m.offHeight == d.labelHeight
  {
    Measured(d.labelWidth, d.labelHeight, d.labelWidth, d.labelHeight)
  }

  /**
   * A second pass over the sizes the first one set keeps the height,
   * never narrows the label, restores the aspect ratio even for short
   * labels, and every further pass changes nothing.
   */
  lemma RemeasureReachesAspect(m: Measured)
    ensures var d1 := ComputeDimensions(m);
      var d2 := ComputeDimensions(Remeasured(d1));
      d2.labelHeight == d1.labelHeight
      && d2.labelWidth >= d1.labelWidth
      && d2.labelWidth >= MinWidthFor(d2.labelHeight)
      && ComputeDimensions(Remeasured(d2)) == d2
  {
    var d1 := ComputeDimensions(m);
    var d2 := ComputeDimensions(Remeasured(d1));
    AspectKeptForTallLabels(Remeasured(d1));
    var d3 := ComputeDimensions(Remeasured(d2));
    assert d3.labelHeight == d2.labelHeight;
    assert d3.labelWidth == d2.labelWidth;
  }
}
