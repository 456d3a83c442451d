# Axis ticks, the numeric axis and the symbol drawer, in Dafny

This project models three parts of the Plottable charting library and proves
properties of the model:

- **Tick utilities** (module `TickUtils`, `tick_utils.dfy`). This part chooses the
  tick values of a scale and computes the tick-mark endpoints and the tick-label
  placement for each axis orientation. It also runs the filters that decide which
  tick labels and tick marks stay visible: end labels, overflowing labels,
  overlapping labels, and marks that share a datum with a shown label.
  - The geometry is written as functions.
  - Each filter is a method that changes an `array<Visibility>` in place. Its
    postcondition ties the new contents to a specification function on sequences.
  - The filters' guarantees are lemmas about those functions.
- **Numeric axis** (module `NumericAxis`, class `Numeric`, `numeric_axis.dfy`).
  The class holds:
  - the tick-label positioning and the text-width approximation setting;
  - the cached width and height, computed from the measured label texts;
  - the relayout-or-repaint decision when the scale changes;
  - the validating positioning setter;
  - the render pass, which lays out the labels and runs the filters in the
    source's fixed order.

  Calls into the Axis superclass and the component machinery (`redraw`,
  `render`, the superclass render pass) are recorded, in order, in the ghost
  field `calls`.
- **Symbol drawer** (module `SymbolDrawer`, class `Symbol`, `symbol_drawer.dfy`).
  A draw step rewrites the attribute-to-projector map: `x`, `y`, `r` and `symbol`
  are removed, and a composed `transform` and a `d` projector are added. The step
  keeps a full copy of the map for `GetPixelPoint`. Entering data binds exactly
  one path per datum.

Coordinates and sizes are `real`. The collaborators whose code is not part of
this model are parameters: text measurement (`measure`), number formatting
(`formatter`, `show`, `numberText`) and string-to-number coercion (`parse`).
Scales are a record holding their capability flags, their domain and their
proposed ticks.

Where the text and the code disagree, the model follows the code:

- `tickUtils.ts:62` is missing a parenthesis (`switch (orientation {`). It is
  modelled as the evident `switch (orientation)`.
- `hideTickMarksWithoutLabel` hides the marks whose datum is the datum of a *shown*
  label. This is the opposite of what its name and doc comment say, and
  `HideTickMarksWithoutLabel` keeps that behaviour.

## Model

| member | source | states |
|---|---|---|
| TickUtils.ValuesInDomain | src/utils/tickUtils.ts:9-10 | the result is the input with some values left out and the rest in their order; each value in the domain occurs as often as in the input and no other value occurs; strictly increasing input stays strictly increasing |
| TickUtils.SubsequenceKeepsIncreasing | src/utils/tickUtils.ts:9-10 | leaving values out of a strictly increasing sequence, in order, keeps it strictly increasing |
| TickUtils.GetTickValues | src/utils/tickUtils.ts:4-11 | the domain itself for a non-quantitative or interpolated-colour scale; otherwise the proposed ticks that lie in the domain, in their order and with their multiplicity, strictly increasing when the ticks are |
| TickUtils.GenerateTickMarkAttrHash | src/utils/tickUtils.ts:97-136 | horizontal axes take both x ends from the scale and constant y ends; vertical axes the reverse |
| TickUtils.TickMarkSpansTickLength | src/utils/tickUtils.ts:105-133 | every mark sits at its tick's scaled position, starts on the axis line (0 bottom, height top, width left, 0 right) and ends `tickLength` away from the plot |
| TickUtils.GenerateTicks | src/utils/tickUtils.ts:14-95 | anchor is "end" on left and "start" on right whatever the positioning; on horizontal axes it is "end" for positioning "left", "start" for "right" and "middle" otherwise; dy is "0.95em" bottom, "-.25em" top, and -0.3em/1em/0.3em on vertical axes; labels follow the mark's x1 (horizontal) or y1 (vertical); the group moves by `y1 ± shift` or `x1 ∓ shift` across the axis and by ±padding or 0 along it |
| TickUtils.LabelsClearTickMarks | src/utils/tickUtils.ts:22-86 | for marks no longer than the label shift length: with centred labels the label group starts at least `padding` beyond the far end of the marks, exactly `padding` when the lengths agree; with edge labels it starts `padding` from the axis line |
| TickUtils.TransformTextDeterminesTranslation | src/utils/tickUtils.ts:87 | when the x coordinates are written without a comma and each coordinate can be read back from its text, equal `translate(x, y)` texts mean equal translations |
| TickUtils.VisibleFilter | src/utils/tickUtils.ts:141-146 | returns, in increasing order, exactly the positions whose visibility is "inherit" or "visible" |
| TickUtils.ShowAllTickMarks | src/utils/tickUtils.ts:242-246 | every mark ends up "inherit" |
| TickUtils.ShownLabelNumbers | src/utils/tickUtils.ts:152-153 | the gathered set holds exactly the data of the shown labels |
| TickUtils.HideTickMarksWithoutLabel | src/utils/tickUtils.ts:151-159 | a mark becomes hidden exactly when its datum is the datum of a shown label; every other mark keeps its visibility |
| TickUtils.HideEndTickLabels | src/utils/tickUtils.ts:164-176 | the new visibility is the end-label rule applied to the old one; nothing changes on an empty selection |
| TickUtils.EndLabelsHiddenOnlyAtEnds | src/utils/tickUtils.ts:164-176 | only the first and last labels can change, and each is hidden exactly when it is not inside the box |
| TickUtils.HideOverflowingTickLabels | src/utils/tickUtils.ts:181-190 | exactly the labels not inside the box become hidden, and the others keep their visibility |
| TickUtils.HasOverlapWithInterval | src/utils/tickUtils.ts:219-239 | reports overlap exactly when some kept pair `i`, `i+k` (with `i` a multiple of `k` and `i < n-k`) collides under the padding, which is tripled for a non-centred positioning |
| TickUtils.NoOverlapAtLongStride | src/utils/tickUtils.ts:225 | a stride of at least the number of rectangles never reports overlap |
| TickUtils.StrideSearch | src/utils/tickUtils.ts:196-200 | searching upward from a stride below which all strides overlap finds the least stride without overlap; it goes past the number of rectangles only when it starts past it |
| TickUtils.LeastClearStride | src/utils/tickUtils.ts:196-200 | the chosen stride is at least 1 and at most max(1, n); it has no overlap, and every smaller stride has one |
| TickUtils.LeastClearStrideUnique | src/utils/tickUtils.ts:196-200 | the least clear stride is unique |
| TickUtils.HideOverlappingTickLabels | src/utils/tickUtils.ts:192-207 | the upward interval search ends at the least clear stride of the shown labels' rectangles, and the labels end up thinned to that stride |
| TickUtils.LeastClearInterval | src/utils/tickUtils.ts:196-200 | the interval loop stops exactly at the least clear stride of the rectangles |
| TickUtils.HideOffStride | src/utils/tickUtils.ts:202-207 | the shown label at visible-index `j` is hidden when `j` is not a multiple of the interval; every other label keeps its visibility |
| TickUtils.OverlapHiddenAt | src/utils/tickUtils.ts:193-207 | visible-index `j` is hidden iff `j mod k ≠ 0`; labels that were not shown are untouched; no label is made visible; the first shown label stays |
| TickUtils.SurvivorOnStride | src/utils/tickUtils.ts:202-207 | a label still shown after thinning was shown before, at a visible-index that is a multiple of the stride |
| TickUtils.StrideNeighboursClear | src/utils/tickUtils.ts:196-200 | shown labels one stride apart in visible order do not collide |
| TickUtils.ThinningRemovesOverlap | src/utils/tickUtils.ts:192-239 | after thinning, no two neighbouring shown labels collide |
| TickUtils.LargeStrideKeepsFirstOnly | src/utils/tickUtils.ts:198-207 | when the stride reaches the number of shown labels, every shown label but the first is hidden |
| NumericAxis.Lower | src/axes/numericAxis.ts:161 | same length; no capitals remain; other characters are kept; each capital maps to its lower-case letter |
| NumericAxis.LowerKeepsLowerCase | src/axes/numericAxis.ts:161 | a string without capitals is left as it is |
| NumericAxis.PositionsFor | src/axes/numericAxis.ts:162-170 | each family holds "center" plus its two edge positionings (left/right horizontal, top/bottom vertical) |
| NumericAxis.MiddleIsRejected | src/axes/numericAxis.ts:161-169 | "middle" is accepted by neither family |
| NumericAxis.CenterIsAcceptedInAnyCase | src/axes/numericAxis.ts:161-170 | "Center" lower-cases to "center", which every orientation accepts |
| NumericAxis.TopIsVerticalOnly | src/axes/numericAxis.ts:161-170 | "TOP" lower-cases to "top", which exactly the vertical orientations accept |
| NumericAxis.AxisThickness | src/axes/numericAxis.ts:32-36 | centred: the sum of mark length, padding and label extent; edge: the larger of the mark length and padding plus label extent |
| NumericAxis.ThicknessFitsMarkAndLabel | src/axes/numericAxis.ts:65-69 | for non-negative sizes the thickness fits the mark and the padded label, and never exceeds the centred thickness |
| NumericAxis.MaxOr | src/axes/numericAxis.ts:48 | the default for no values; otherwise a member of the values that is at least every value |
| NumericAxis.LargestWidth | src/axes/numericAxis.ts:41-60 | 0 for no values; otherwise the width of one of the values and at least the width of each |
| NumericAxis.RenderedLabelsFitBox | src/axes/numericAxis.ts:113-120 | every label still shown after a render pass lies inside the bounding box |
| NumericAxis.RenderedLabelsDoNotCollide | src/axes/numericAxis.ts:113-120 | after a render pass no two neighbouring shown labels collide |
| NumericAxis.RenderedMarksRule | src/axes/numericAxis.ts:111-124 | with centred labels every mark is shown; otherwise a mark is hidden exactly when its value is a shown label's value |
| NumericAxis.PruneTickLabels | src/axes/numericAxis.ts:113-120 | end labels (unless shown), then overflow, then overlap are applied in that order, and the calls are recorded in that order |
| NumericAxis.PruneTickMarks | src/axes/numericAxis.ts:122-124 | marks without label are pruned only for non-centred labels |
| NumericAxis.BindTickMarks | src/axes/numericAxis.ts:95 | one mark per tick value; the kept marks keep their visibility and new marks start as "inherit" |
| NumericAxis.ResetTicks | src/axes/numericAxis.ts:102-111 | fresh labels and marks, one per tick value, all "inherit" |
| NumericAxis.RenderTicks | src/axes/numericAxis.ts:94-126 | the labels and marks a render pass leaves, and the calls in the source's order |
| NumericAxis.Numeric.constructor | src/axes/numericAxis.ts:4-21 | positioning "center", no text-width approximation, not yet set up |
| NumericAxis.Numeric.TickValues | src/axes/numericAxis.ts:74-76 | the domain for a non-quantitative or interpolated-colour scale; otherwise the scale's ticks that lie in the domain, in their order and with their multiplicity |
| NumericAxis.Numeric.Setup | src/axes/numericAxis.ts:23-27 | measurement is available after setup |
| NumericAxis.Numeric.ComputeExactTextWidth | src/axes/numericAxis.ts:41-49 | the largest measured width of the formatted tick values, 0 when there are none |
| NumericAxis.Numeric.ComputeApproximateTextWidth | src/axes/numericAxis.ts:51-60 | the largest character count times the width of "M", 0 when there are none |
| NumericAxis.Numeric.ComputeWidth | src/axes/numericAxis.ts:29-39 | caches and returns the thickness for the widest label text, measured exactly or approximately as configured |
| NumericAxis.Numeric.ComputeHeight | src/axes/numericAxis.ts:62-72 | caches and returns the thickness for the measured text height |
| NumericAxis.Numeric.Rescale | src/axes/numericAxis.ts:78-92 | nothing before setup; a vertical axis recomputes its width and asks for a relayout exactly when that width exceeds `width` or falls below `width - margin`, otherwise a repaint; a horizontal axis always repaints |
| NumericAxis.Numeric.TickLabelPosition | src/axes/numericAxis.ts:157-159 | the positioning belongs to the orientation's family |
| NumericAxis.Numeric.SetTickLabelPosition | src/axes/numericAxis.ts:157-175 | a lower-cased positioning from the orientation's family is stored, the getter then returns it, and a relayout is requested; any other value fails with the source's message and changes nothing |
| NumericAxis.Numeric.UsesTextWidthApproximation | src/axes/numericAxis.ts:193-196 | the stored setting, which decides whether the required width uses the approximate or the exact label width |
| NumericAxis.Numeric.SetUsesTextWidthApproximation | src/axes/numericAxis.ts:193-200 | the getter afterwards returns the value set |
| NumericAxis.Numeric.RenderImmediately | src/axes/numericAxis.ts:94-127 | labels and marks are bound to the tick values with formatted texts; the label layout is the one computed from the axis's tick marks, and the label container's transform is its `translate(x, y)` text; label and mark visibility are the rendered rules; the calls come in the source's order |
| NumericAxis.Numeric.LayOutTickLabels | src/axes/numericAxis.ts:96-111 | the layout comes from the tick marks, the container's transform is the layout's `translate(x, y)` text, and each label text is the formatted tick value |
| NumericAxis.Numeric.BindTickVisibility | src/axes/numericAxis.ts:102-125 | fresh label and mark arrays bound to the tick values, carrying the rendered visibility |
| SymbolDrawer.SymbolAttributes | src/drawers/symbolDrawer.ts:19-39 | the animated map has no x, y, r or symbol; its transform composes x, y and r; its d is the symbol projector; every other key keeps its projector |
| SymbolDrawer.TransformTranslatesToPixelPoint | src/drawers/symbolDrawer.ts:32-34 | the transform translates the symbol exactly to its pixel point |
| SymbolDrawer.TransformExample | src/drawers/symbolDrawer.ts:32-34 | x = 10, y = 20, r = 100 gives "translate(10,20) scale(2)" |
| SymbolDrawer.JoinPaths | src/drawers/symbolDrawer.ts:7-13 | one path per datum, bound by position, all classed "symbol"; kept paths keep their classes and fill |
| SymbolDrawer.FillPaths | src/drawers/symbolDrawer.ts:42-44 | every path gets the fill projector, and nothing else changes |
| SymbolDrawer.Symbol.EnterData | src/drawers/symbolDrawer.ts:7-13 | exactly one path per datum after the join |
| SymbolDrawer.Symbol.DrawStep | src/drawers/symbolDrawer.ts:19-47 | keeps the step's full map; hands the rewritten map to the animator; sets a static fill iff there is a fill projector |
| SymbolDrawer.Symbol.GetPixelPoint | src/drawers/symbolDrawer.ts:53-55 | the point read from the saved map is where the symbol's transform translates it |

## Left out

- The DOM and d3 are not modelled. Selections become arrays of visibilities, and
  bounding client rectangles are passed in as `Rect` values.
- `style("visibility")` reads the element's own value, with no inherited computed
  style, and the three values are an enumeration.
- `Utils.DOM.clientRectInside` and `Utils.Math.valuesInDomain` are not part of
  this model.
  - `Inside` is plain containment.
  - `InDomain` is the inclusive range between the domain's first and last value.
- Scale internals are not modelled: `scale.scale`, `ticks()`, `domain()` and the
  prototype checks. A tick mark's scaled coordinate is the `Scaled` marker, read
  through an arbitrary scale function in `TickMarkSpansTickLength`.
- `GenerateTicks` requires that the coordinate read as a number is a constant. That
  coordinate is `y1` on horizontal axes and `x1` on vertical ones.
  `GenerateTickMarkAttrHash` always produces such a mark.
- `GenerateTicks` models the group transform as a `Translation` of two reals.
  `LabelGroupTransformText` renders it as text with the abstract number
  rendering `numberText`, and the render pass stores that text as the label
  container's transform. Em-unit strings are kept as constants.
- `ApproximateWidth` counts the characters of the formatted text. JavaScript's
  `length` counts UTF-16 code units, so the two differ for characters outside
  the Basic Multilingual Plane.
- `Lower` lower-cases only the letters A to Z. JavaScript's full Unicode
  `toLowerCase` is not modelled.
- The Axis superclass and the component machinery are not modelled. Only
  `redraw`, `render` and `super.renderImmediately` are recorded, in the ghost
  `calls` trace. The rest of what the model takes from the superclass is as
  follows.
  - `_setup` is `Setup`, which only marks the axis as set up.
  - The render pass assumes the superclass binds one tick mark per tick value.
  - The tick-mark layout is taken to be `GenerateTickMarkAttrHash` of the axis's
    width, height, orientation and inner tick length.
  - `maxLabelTickLength`, `innerTickLength`, `margin`, `width` and `height` are
    plain fields. Nothing ties `maxLabelTickLength` to `innerTickLength`.
    `LabelsClearTickMarks` therefore states its clearance for marks no longer
    than the label shift length.
- The SVGTypewriter measurer and wrapper are not modelled. Measuring is the
  function `measure`, and `defaultMeasureText` is what it measures when given no
  text. The wrapper is not used by the modelled code.
- NumericAxis.Numeric.ComputeWidth: `_computedWidth` is initially undefined in
  the source but starts at 0 in the model.
- JavaScript number formatting, `NaN` and string coercion are the abstract
  functions `formatter`, `show` and `parse`. Arithmetic is exact over the reals.
- SymbolDrawer.Symbol.DrawStep: requires that the map has `x`, `y`, `r` and
  `symbol`. The source accepts a map without them but then installs or calls
  `undefined`.
- The animator is not modelled; it is recorded as the sequence of maps handed to
  it. `super._drawStep` and `super._enterData` are left out because their code is
  not part of this model.
- The demo page (`quicktests`) is UI wiring and is not modelled.
