/**
 * A numeric axis: the thickness it asks of the layout, the choice between a
 * relayout and a repaint when its scale changes, its validated configuration,
 * and the render pass that places its tick labels and prunes labels and marks.
 *
 * Text measurement is the function `measure`; number formatting is the
 * function `formatter`.  Calls into the Axis superclass and the component
 * machinery (`redraw`, `render`, the superclass's own render pass) are
 * recorded, in order, in the ghost field `calls`.
 */
module NumericAxis {
  import opened TickUtils

  /** The measured extent of a text. */
  datatype Size = Size(width: real, height: real)

  /** A setter's result: accepted, or rejected with the error's message. */
  datatype Outcome = Pass | Fail(message: string)

  /** Calls the axis makes that change what is drawn, in the order made. */
  datatype Step =
    | SuperRender      // the Axis superclass's own render pass
    | Redraw           // a full relayout
    | Render           // a repaint
    | ShowMarks
    | HideEnds
    | HideOverflow
    | HideOverlap
    | HideMarks

  // ---------------------------------------------------------------------------
  // Positioning values
  // ---------------------------------------------------------------------------

  predicate IsUpper(c: char)
  {
    'A' <= c <= 'Z'
  }

  /** Lower-cases a string (letters A to Z only). */
  function Lower(s: string): (r: string)
    ensures |r| == |s|
    ensures forall i :: 0 <= i < |r| ==> !IsUpper(r[i])
    ensures forall i :: 0 <= i < |s| && !IsUpper(s[i]) ==> r[i] == s[i]
    ensures forall i :: 0 <= i < |s| && IsUpper(s[i]) ==> r[i] as int == s[i] as int + 32
  {
    if |s| == 0 then ""
    else
      var c := if IsUpper(s[0]) then (s[0] as int + 32) as char else s[0];
      [c] + Lower(s[1..])
  }

  /** The positionings an axis of the given orientation accepts. */
  function PositionsFor(o: Orientation): (ps: set<string>)
    ensures "center" in ps
    ensures ps == EdgePositionings(IsHorizontal(o)) + {"center"}
  {
    if IsHorizontal(o) then {"left", "center", "right"} else {"top", "center", "bottom"}
  }

  function InvalidPositionMessage(positionLC: string, o: Orientation): string
  {
    positionLC + " is not a valid tick label position for a " +
    (if IsHorizontal(o) then "horizontal" else "vertical") + " NumericAxis"
  }

  /** Lower-casing leaves a string without capitals as it is. */
  lemma LowerKeepsLowerCase(s: string)
    requires forall i :: 0 <= i < |s| ==> !IsUpper(s[i])
    ensures Lower(s) == s
  {
  }

  /** A vertical axis rejects "middle". */
  lemma MiddleIsRejected()
    ensures Lower("middle") == "middle" && "middle" !in PositionsFor(Left) && "middle" !in PositionsFor(Bottom)
  {
    LowerKeepsLowerCase("middle");
  }

  /** "Center" is taken as "center", which either kind of axis accepts. */
  lemma CenterIsAcceptedInAnyCase()
    ensures Lower("Center") == "center"
    ensures forall o :: "center" in PositionsFor(o)
  {
    var c := Lower("Center");
    assert c[0] == 'c';
  }

  /** "TOP" is taken as "top", which only a vertical axis accepts. */
  lemma TopIsVerticalOnly()
    ensures Lower("TOP") == "top"
    ensures forall o :: "top" in PositionsFor(o) <==> !IsHorizontal(o)
  {
    var t := Lower("TOP");
    assert t[0] == 't' && t[1] == 'o' && t[2] == 'p';
  }

  // ---------------------------------------------------------------------------
  // Thickness
  // ---------------------------------------------------------------------------

  /**
   * The thickness an axis needs: with centred labels the mark, the padding and
   * the label are stacked; with edge labels the label sits beside the mark, so
   * the larger of the two counts.
   */
  function AxisThickness(positioning: string, markLength: real, padding: real, labelExtent: real): (t: real)
    ensures positioning == "center" ==> t == markLength + padding + labelExtent
    ensures positioning != "center" ==>
      t >= markLength && t >= padding + labelExtent && (t == markLength || t == padding + labelExtent)
  {
    if positioning == "center" then markLength + padding + labelExtent
    else Max(markLength, padding + labelExtent)
  }

  /** Whatever the positioning, the thickness leaves room for the mark and for the padded label. */
  lemma ThicknessFitsMarkAndLabel(positioning: string, markLength: real, padding: real, labelExtent: real)
    requires markLength >= 0.0 && padding >= 0.0 && labelExtent >= 0.0
    ensures var t := AxisThickness(positioning, markLength, padding, labelExtent);
      t >= markLength && t >= padding + labelExtent &&
      t <= AxisThickness("center", markLength, padding, labelExtent)
  {
  }

  /** The largest of `xs`, or `default` when there is none. */
  function MaxOr(xs: seq<real>, default: real): (m: real)
    ensures |xs| == 0 ==> m == default
    ensures |xs| > 0 ==> m in xs && forall i :: 0 <= i < |xs| ==> xs[i] <= m
  {
    if |xs| == 0 then default
    else if |xs| == 1 then xs[0]
    else Max(xs[0], MaxOr(xs[1..], default))
  }

  /** The approximate width of a text: its number of characters times the width of "M". */
  function ApproximateWidth(text: string, mWidth: real): real
  {
    |text| as real * mWidth
  }

  /** The largest of the widths of `values`, 0 when there are none. */
  function LargestWidth(values: seq<real>, widthOf: real -> real): (w: real)
    ensures |values| == 0 ==> w == 0.0
    ensures forall i :: 0 <= i < |values| ==> widthOf(values[i]) <= w
    ensures |values| > 0 ==> exists i :: 0 <= i < |values| && w == widthOf(values[i])
  {
    var widths := seq(|values|, i requires 0 <= i < |values| => widthOf(values[i]));
    var w := MaxOr(widths, 0.0);
    forall i | 0 <= i < |values|
      ensures widthOf(values[i]) <= w
    {
      assert widths[i] <= w;
    }
    assert |values| > 0 ==> exists i :: 0 <= i < |values| && w == widths[i];
    w
  }

  // ---------------------------------------------------------------------------
  // The render pass, as a specification
  // ---------------------------------------------------------------------------

  function AllInherit(n: nat): (r: seq<Visibility>)
    ensures |r| == n && forall i :: 0 <= i < n ==> r[i] == Inherit
  {
    seq(n, _ => Inherit)
  }

  /** Label visibility after a render pass: reset, end labels, overflow, overlap. */
  function RenderedLabels(rects: seq<Rect>, box: Rect, showEndTickLabels: bool, o: Orientation, positioning: string, padding: real): seq<Visibility>
  {
    var reset := AllInherit(|rects|);
    var ends := if showEndTickLabels then reset else EndLabelsHidden(reset, rects, box);
    var inBox := OverflowHidden(ends, rects, box);
    OverlapHidden(inBox, rects, IsHorizontal(o), EffectivePadding(positioning, padding))
  }

  /** Mark visibility after a render pass: reset, then marks of shown labels hidden unless centred. */
  function RenderedMarks(markValues: seq<real>, labelValues: seq<real>, labels: seq<Visibility>, positioning: string): seq<Visibility>
    requires |labelValues| == |labels|
  {
    var reset := AllInherit(|markValues|);
    if positioning != "center" then MarksWithoutLabelHidden(reset, markValues, labelValues, labels) else reset
  }

  /** The calls of a render pass, in order. */
  function RenderSteps(showEndTickLabels: bool, positioning: string): seq<Step>
  {
    [SuperRender, ShowMarks] + LabelFilterSteps(showEndTickLabels) + MarkFilterSteps(positioning)
  }

  function LabelFilterSteps(showEndTickLabels: bool): seq<Step>
  {
    (if showEndTickLabels then [] else [HideEnds]) + [HideOverflow, HideOverlap]
  }

  function MarkFilterSteps(positioning: string): seq<Step>
  {
    if positioning != "center" then [HideMarks] else []
  }

  /** Every label left shown after a render pass lies inside the bounding box. */
  lemma RenderedLabelsFitBox(rects: seq<Rect>, box: Rect, showEndTickLabels: bool, o: Orientation, positioning: string, padding: real)
    ensures var r := RenderedLabels(rects, box, showEndTickLabels, o, positioning, padding);
      |r| == |rects| && forall p :: 0 <= p < |r| && IsShown(r[p]) ==> Inside(rects[p], box)
  {
    var reset := AllInherit(|rects|);
    var ends := if showEndTickLabels then reset else EndLabelsHidden(reset, rects, box);
    if !showEndTickLabels {
      EndLabelsHiddenOnlyAtEnds(reset, rects, box);
    }
    var inBox := OverflowHidden(ends, rects, box);
    OverlapHiddenAt(inBox, rects, IsHorizontal(o), EffectivePadding(positioning, padding));
  }

  /** After a render pass no two neighbouring shown labels collide. */
  lemma RenderedLabelsDoNotCollide(rects: seq<Rect>, box: Rect, showEndTickLabels: bool, o: Orientation, positioning: string, padding: real, p: nat, q: nat)
    requires ShownNeighbours(RenderedLabels(rects, box, showEndTickLabels, o, positioning, padding), p, q)
    ensures !Collides(rects[p], rects[q], IsHorizontal(o), EffectivePadding(positioning, padding))
  {
    var reset := AllInherit(|rects|);
    var ends := if showEndTickLabels then reset else EndLabelsHidden(reset, rects, box);
    if !showEndTickLabels {
      EndLabelsHiddenOnlyAtEnds(reset, rects, box);
    }
    var inBox := OverflowHidden(ends, rects, box);
    ThinningRemovesOverlap(inBox, rects, IsHorizontal(o), EffectivePadding(positioning, padding), p, q);
  }

  /**
   * With centred labels every mark is shown; otherwise a mark is hidden
   * exactly when its value is the value of a shown label.
   */
  lemma RenderedMarksRule(markValues: seq<real>, labelValues: seq<real>, labels: seq<Visibility>, positioning: string)
    requires |labelValues| == |labels|
    ensures var r := RenderedMarks(markValues, labelValues, labels, positioning);
      |r| == |markValues| &&
      (positioning == "center" ==> forall i :: 0 <= i < |r| ==> r[i] == Inherit) &&
      (positioning != "center" ==> forall i :: 0 <= i < |r| ==>
        (r[i] == Hidden <==> exists p :: 0 <= p < |labels| && IsShown(labels[p]) && labelValues[p] == markValues[i]))
  {
  }

  /**
   * Runs the label filters of a render pass on freshly reset labels, in the
   * order the pass runs them, and returns the filter calls made.
   */
  method PruneTickLabels(labelRects: seq<Rect>, labels: array<Visibility>, box: Rect, showEndTickLabels: bool,
                         o: Orientation, positioning: string, padding: real)
    returns (steps: seq<Step>)
    requires labels[..] == AllInherit(|labelRects|)
    modifies labels
    ensures labels[..] == RenderedLabels(labelRects, box, showEndTickLabels, o, positioning, padding)
    ensures steps == LabelFilterSteps(showEndTickLabels)
  {
    steps := [];
    if !showEndTickLabels {
      HideEndTickLabels(labelRects, labels, box);
      steps := steps + [HideEnds];
    }
    HideOverflowingTickLabels(labelRects, labels, box);
    HideOverlappingTickLabels(labelRects, labels, o, positioning, padding);
    steps := steps + [HideOverflow, HideOverlap];
  }

  /**
   * Hides, unless labels are centred, the freshly shown marks whose value is
   * the value of a shown label; returns the filter calls made.
   */
  method PruneTickMarks(marks: array<Visibility>, markValues: seq<real>, labelValues: seq<real>,
                        labels: array<Visibility>, positioning: string)
    returns (steps: seq<Step>)
    requires marks != labels && labels.Length == |labelValues|
    requires marks[..] == AllInherit(|markValues|)
    modifies marks
    ensures marks[..] == RenderedMarks(markValues, labelValues, labels[..], positioning)
    ensures steps == MarkFilterSteps(positioning)
  {
    steps := [];
    if positioning != "center" {
      HideTickMarksWithoutLabel(markValues, marks, labelValues, labels);
      steps := [HideMarks];
    }
  }

  /**
   * Binds one mark per tick value: the first marks keep their visibility,
   * marks for additional values start as "inherit".
   */
  method BindTickMarks(previous: array<Visibility>, n: nat) returns (marks: array<Visibility>)
    ensures fresh(marks) && marks.Length == n
    ensures forall j :: 0 <= j < n ==> marks[j] == if j < previous.Length then previous[j] else Inherit
  {
    marks := new Visibility[n];
    for i := 0 to n
      invariant forall j :: 0 <= j < i ==> marks[j] == if j < previous.Length then previous[j] else Inherit
    {
      marks[i] := if i < previous.Length then previous[i] else Inherit;
    }
  }

  /**
   * The superclass binds `n` marks, `n` fresh labels are reset to "inherit",
   * and all marks are shown.
   */
  method ResetTicks(previousMarks: array<Visibility>, n: nat) returns (labels: array<Visibility>, marks: array<Visibility>)
    ensures fresh(labels) && fresh(marks) && labels != marks
    ensures labels[..] == AllInherit(n) && marks[..] == AllInherit(n)
  {
    marks := BindTickMarks(previousMarks, n);
    labels := new Visibility[n](_ => Inherit);
    ShowAllTickMarks(marks);
    assert labels[..] == AllInherit(n);
    assert marks[..] == AllInherit(n);
  }

  /**
   * The label and mark work of a render pass, in its order: the superclass
   * binds one mark per tick value, one label per tick value is reset to
   * "inherit", all marks are shown, and the filters run.  Returns the new
   * labels and marks and the calls made.
   */
  method RenderTicks(tickValues: seq<real>, previousMarks: array<Visibility>, labelRects: seq<Rect>, box: Rect,
                     showEndTickLabels: bool, o: Orientation, positioning: string, padding: real)
    returns (labels: array<Visibility>, marks: array<Visibility>, steps: seq<Step>)
    requires |labelRects| == |tickValues|
    ensures fresh(labels) && fresh(marks) && labels != marks
    ensures labels.Length == marks.Length == |tickValues|
    ensures labels[..] == RenderedLabels(labelRects, box, showEndTickLabels, o, positioning, padding)
    ensures marks[..] == RenderedMarks(tickValues, tickValues, labels[..], positioning)
    ensures steps == RenderSteps(showEndTickLabels, positioning)
  {
    labels, marks := ResetTicks(previousMarks, |tickValues|);
    var labelSteps := PruneTickLabels(labelRects, labels, box, showEndTickLabels, o, positioning, padding);
    var markSteps := PruneTickMarks(marks, tickValues, tickValues, labels, positioning);
    steps := [SuperRender, ShowMarks] + labelSteps + markSteps;
  }

  // ---------------------------------------------------------------------------
  // The axis
  // ---------------------------------------------------------------------------

  class Numeric {
    const orientation: Orientation
    const formatter: real -> string
    const measure: string -> Size
    /** The text the measurer measures when it is given none. */
    const defaultMeasureText: string
    /** How a number is written when it is spliced into an attribute text. */
    const numberText: real -> string
    var scale: Scale

    var tickLabelPositioning: string
    var usesTextWidthApproximation: bool
    var computedWidth: real
    var computedHeight: real
    var isSetup: bool

    // Configuration and allocated size owned by the Axis superclass.
    var width: real
    var height: real
    var margin: real
    var tickLabelPadding: real
    var maxLabelTickLength: real
    var innerTickLength: real
    var showEndTickLabels: bool

    // The rendered labels and marks: their bound values and visibility.
    var tickLabelValues: seq<real>
    var tickLabelTexts: seq<string>
    var tickLabels: array<Visibility>
    var tickMarkValues: seq<real>
    var tickMarks: array<Visibility>
    var tickLabelLayout: TickLabelLayout
    /** The transform attribute of the label container. */
    var tickLabelContainerTransform: string

    ghost var calls: seq<Step>

    /** The positioning belongs to the orientation's family. */
    ghost predicate PositioningValid()
      reads this`tickLabelPositioning
    {
      tickLabelPositioning in PositionsFor(orientation)
    }

    /** Labels and marks are distinct and bound one to one to their values. */
    ghost predicate TicksBound()
      reads this`tickLabels, this`tickMarks, this`tickLabelValues, this`tickLabelTexts, this`tickMarkValues
    {
      tickLabels != tickMarks &&
      tickLabels.Length == |tickLabelValues| == |tickLabelTexts| &&
      tickMarks.Length == |tickMarkValues|
    }

    constructor (scale: Scale, orientation: Orientation, formatter: real -> string, measure: string -> Size,
                 defaultMeasureText: string, numberText: real -> string, tickLabelPadding: real, maxLabelTickLength: real,
                 innerTickLength: real, margin: real, showEndTickLabels: bool)
      ensures PositioningValid() && TicksBound()
      ensures this.scale == scale && this.orientation == orientation && this.formatter == formatter
      ensures this.measure == measure && this.defaultMeasureText == defaultMeasureText && this.numberText == numberText
      ensures this.tickLabelPadding == tickLabelPadding && this.maxLabelTickLength == maxLabelTickLength
      ensures this.innerTickLength == innerTickLength && this.margin == margin
      ensures this.showEndTickLabels == showEndTickLabels
      ensures tickLabelPositioning == "center" && !usesTextWidthApproximation && !isSetup
      ensures tickLabelValues == [] && tickMarkValues == [] && calls == []
    {
      this.scale := scale;
      this.orientation := orientation;
      this.formatter := formatter;
      this.measure := measure;
      this.defaultMeasureText := defaultMeasureText;
      this.numberText := numberText;
      this.tickLabelPadding := tickLabelPadding;
      this.maxLabelTickLength := maxLabelTickLength;
      this.innerTickLength := innerTickLength;
      this.margin := margin;
      this.showEndTickLabels := showEndTickLabels;
      tickLabelPositioning := "center";
      usesTextWidthApproximation := false;
      computedWidth, computedHeight := 0.0, 0.0;
      isSetup := false;
      width, height := 0.0, 0.0;
      tickLabelValues, tickLabelTexts, tickMarkValues := [], [], [];
      tickLabels := new Visibility[0];
      tickMarks := new Visibility[0];
      tickLabelLayout := GenerateTicks(GenerateTickMarkAttrHash(0.0, 0.0, orientation, innerTickLength),
        maxLabelTickLength, orientation, tickLabelPadding, "center");
      tickLabelContainerTransform := "";
      calls := [];
    }

    /** Creates the measurer: measurement is available from now on. */
    method Setup()
      modifies this`isSetup
      ensures isSetup
    {
      isSetup := true;
    }

    /** The values the axis labels: those of the tick engine for the axis's scale. */
    function TickValues(): (values: seq<real>)
      reads this`scale
      ensures !scale.isQuantitative || scale.isInterpolatedColor ==> values == scale.domain
      ensures scale.isQuantitative && !scale.isInterpolatedColor ==>
        Subsequence(values, scale.ticks) &&
        forall v :: multiset(values)[v] == if InDomain(v, scale.domain) then multiset(scale.ticks)[v] else 0
    {
      GetTickValues(scale)
    }

    /** The widest formatted tick value, as measured. */
    function ComputeExactTextWidth(): (w: real)
      reads this`scale, this`isSetup
      requires isSetup
      ensures var values := TickValues();
        (forall i :: 0 <= i < |values| ==> measure(formatter(values[i])).width <= w) &&
        (values == [] ==> w == 0.0) &&
        (values != [] ==> exists i :: 0 <= i < |values| && w == measure(formatter(values[i])).width)
    {
      LargestWidth(TickValues(), v => measure(formatter(v)).width)
    }

    /** The longest formatted tick value, counted in widths of "M". */
    function ComputeApproximateTextWidth(): (w: real)
      reads this`scale, this`isSetup
      requires isSetup
      ensures var values := TickValues();
        (forall i :: 0 <= i < |values| ==> ApproximateWidth(formatter(values[i]), measure("M").width) <= w) &&
        (values == [] ==> w == 0.0) &&
        (values != [] ==> exists i :: 0 <= i < |values| && w == ApproximateWidth(formatter(values[i]), measure("M").width))
    {
      var mWidth := measure("M").width;
      LargestWidth(TickValues(), v => ApproximateWidth(formatter(v), mWidth))
    }

    /** The width the axis asks for, by the current measurement setting. */
    function RequiredWidth(): real
      reads this`scale, this`isSetup, this`usesTextWidthApproximation, this`tickLabelPositioning
      reads this`maxLabelTickLength, this`tickLabelPadding
      requires isSetup
    {
      var maxTextWidth := if usesTextWidthApproximation then ComputeApproximateTextWidth() else ComputeExactTextWidth();
      AxisThickness(tickLabelPositioning, maxLabelTickLength, tickLabelPadding, maxTextWidth)
    }

    method ComputeWidth() returns (w: real)
      requires isSetup
      modifies this`computedWidth
      ensures w == computedWidth == RequiredWidth()
    {
      var maxTextWidth := if usesTextWidthApproximation then ComputeApproximateTextWidth() else ComputeExactTextWidth();
      if tickLabelPositioning == "center" {
        computedWidth := maxLabelTickLength + tickLabelPadding + maxTextWidth;
      } else {
        computedWidth := Max(maxLabelTickLength, tickLabelPadding + maxTextWidth);
      }
      return computedWidth;
    }

    method ComputeHeight() returns (h: real)
      requires isSetup
      modifies this`computedHeight
      ensures h == computedHeight ==
        AxisThickness(tickLabelPositioning, maxLabelTickLength, tickLabelPadding, measure(defaultMeasureText).height)
    {
      var textHeight := measure(defaultMeasureText).height;
      if tickLabelPositioning == "center" {
        computedHeight := maxLabelTickLength + tickLabelPadding + textHeight;
      } else {
        computedHeight := Max(maxLabelTickLength, tickLabelPadding + textHeight);
      }
      return computedHeight;
    }

    /** The required width no longer fits between `width - margin` and `width`. */
    predicate NeedsRelayout(requiredWidth: real)
      reads this`width, this`margin
    {
      requiredWidth > width || requiredWidth < width - margin
    }

    /**
     * Reacts to a change of the scale: a vertical axis whose required width
     * no longer fits its allocation asks for a relayout, any other axis for a
     * repaint; nothing happens before setup.
     */
    method Rescale()
      modifies this`computedWidth, this`calls
      ensures !isSetup ==> computedWidth == old(computedWidth) && calls == old(calls)
      ensures isSetup && !IsHorizontal(orientation) ==>
        computedWidth == RequiredWidth() &&
        calls == old(calls) + [if NeedsRelayout(computedWidth) then Redraw else Render]
      ensures isSetup && IsHorizontal(orientation) ==>
        computedWidth == old(computedWidth) && calls == old(calls) + [Render]
    {
      if !isSetup {
        return;
      }
      if IsHorizontal(orientation) {
        calls := calls + [Render];
        return;
      }
      var reComputedWidth := ComputeWidth();
      if reComputedWidth > width || reComputedWidth < width - margin {
        calls := calls + [Redraw];
      } else {
        calls := calls + [Render];
      }
    }

    function TickLabelPosition(): (p: string)
      reads this`tickLabelPositioning
      requires PositioningValid()
      ensures p in PositionsFor(orientation)
    {
      tickLabelPositioning
    }

    /**
     * Sets the positioning, lower-cased; a value outside the orientation's
     * family is rejected and changes nothing.
     */
    method SetTickLabelPosition(position: string) returns (outcome: Outcome)
      requires PositioningValid()
      modifies this`tickLabelPositioning, this`calls
      ensures PositioningValid()
      ensures Lower(position) in PositionsFor(orientation) ==>
        outcome == Pass && TickLabelPosition() == tickLabelPositioning == Lower(position) &&
        calls == old(calls) + [Redraw]
      ensures Lower(position) !in PositionsFor(orientation) ==>
        outcome == Fail(InvalidPositionMessage(Lower(position), orientation)) &&
        tickLabelPositioning == old(tickLabelPositioning) && calls == old(calls)
    {
      var positionLC := Lower(position);
      var positionsForOrientation := if IsHorizontal(orientation) then {"left", "center", "right"} else {"top", "center", "bottom"};
      if positionLC !in positionsForOrientation {
        return Fail(InvalidPositionMessage(positionLC, orientation));
      }
      tickLabelPositioning := positionLC;
      calls := calls + [Redraw];
      return Pass;
    }

    /** The stored setting, which decides how `RequiredWidth` measures the labels. */
    function UsesTextWidthApproximation(): (enabled: bool)
      reads this`usesTextWidthApproximation
      reads this`scale, this`isSetup, this`tickLabelPositioning, this`maxLabelTickLength, this`tickLabelPadding
      ensures isSetup ==> RequiredWidth() == AxisThickness(tickLabelPositioning, maxLabelTickLength, tickLabelPadding,
        if enabled then ComputeApproximateTextWidth() else ComputeExactTextWidth())
    {
      usesTextWidthApproximation
    }

    method SetUsesTextWidthApproximation(enable: bool)
      modifies this`usesTextWidthApproximation
      ensures UsesTextWidthApproximation() == enable
    {
      usesTextWidthApproximation := enable;
    }

    /** Where the labels go: anchored at the tick marks the axis draws. */
    function LabelLayout(): TickLabelLayout
      reads this`width, this`height, this`innerTickLength, this`maxLabelTickLength, this`tickLabelPadding
      reads this`tickLabelPositioning
    {
      var tickMarkAttrHash := GenerateTickMarkAttrHash(width, height, orientation, innerTickLength);
      GenerateTicks(tickMarkAttrHash, maxLabelTickLength, orientation, tickLabelPadding, tickLabelPositioning)
    }

    /**
     * The render pass.  `labelRects` are the bounding boxes the rendering
     * surface reports for the bound labels, `boundingBox` that of the axis.
     */
    method RenderImmediately(labelRects: seq<Rect>, boundingBox: Rect)
      requires |labelRects| == |TickValues()|
      modifies this`tickLabelValues, this`tickLabelTexts, this`tickLabels, this`tickMarkValues, this`tickMarks
      modifies this`tickLabelLayout, this`tickLabelContainerTransform, this`calls
      ensures TicksBound() && fresh(tickLabels) && fresh(tickMarks)
      ensures tickLabelValues == TickValues() && tickMarkValues == TickValues()
      ensures forall i :: 0 <= i < |tickLabelTexts| ==> tickLabelTexts[i] == formatter(tickLabelValues[i])
      ensures tickLabelLayout == LabelLayout()
      ensures tickLabelContainerTransform == LabelGroupTransformText(LabelLayout().labelGroupTransform, numberText)
      ensures tickLabels[..] ==
        RenderedLabels(labelRects, boundingBox, showEndTickLabels, orientation, tickLabelPositioning, tickLabelPadding)
      ensures tickMarks[..] == RenderedMarks(tickMarkValues, tickLabelValues, tickLabels[..], tickLabelPositioning)
      ensures calls == old(calls) + RenderSteps(showEndTickLabels, tickLabelPositioning)
    {
      var tickValues := GetTickValues(scale);
      LayOutTickLabels(tickValues);
      BindTickVisibility(tickValues, labelRects, boundingBox);
    }

    /** Places the label group and formats one label text per tick value. */
    method LayOutTickLabels(tickValues: seq<real>)
      modifies this`tickLabelLayout, this`tickLabelContainerTransform, this`tickLabelTexts
      ensures tickLabelLayout == LabelLayout()
      ensures tickLabelContainerTransform == LabelGroupTransformText(LabelLayout().labelGroupTransform, numberText)
      ensures |tickLabelTexts| == |tickValues|
      ensures forall i :: 0 <= i < |tickValues| ==> tickLabelTexts[i] == formatter(tickValues[i])
    {
      var tickMarkAttrHash := GenerateTickMarkAttrHash(width, height, orientation, innerTickLength);
      tickLabelLayout := GenerateTicks(tickMarkAttrHash, maxLabelTickLength, orientation, tickLabelPadding, tickLabelPositioning);
      tickLabelContainerTransform := LabelGroupTransformText(tickLabelLayout.labelGroupTransform, numberText);
      tickLabelTexts := seq(|tickValues|, i requires 0 <= i < |tickValues| => formatter(tickValues[i]));
    }

    /** Binds labels and marks to the tick values and runs the visibility filters. */
    method BindTickVisibility(tickValues: seq<real>, labelRects: seq<Rect>, boundingBox: Rect)
      requires |labelRects| == |tickValues|
      modifies this`tickLabels, this`tickMarks, this`tickLabelValues, this`tickMarkValues, this`calls
      ensures fresh(tickLabels) && fresh(tickMarks) && tickLabels != tickMarks
      ensures tickLabels.Length == tickMarks.Length == |tickValues|
      ensures tickLabelValues == tickValues && tickMarkValues == tickValues
      ensures tickLabels[..] ==
        RenderedLabels(labelRects, boundingBox, showEndTickLabels, orientation, tickLabelPositioning, tickLabelPadding)
      ensures tickMarks[..] == RenderedMarks(tickValues, tickValues, tickLabels[..], tickLabelPositioning)
      ensures calls == old(calls) + RenderSteps(showEndTickLabels, tickLabelPositioning)
    {
      var labels, marks, steps := RenderTicks(tickValues, tickMarks, labelRects, boundingBox,
        showEndTickLabels, orientation, tickLabelPositioning, tickLabelPadding);
      tickLabels, tickLabelValues, tickMarks, tickMarkValues := labels, tickValues, marks, tickValues;
      calls := calls + steps;
    }
  }
}
