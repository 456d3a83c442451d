/**
 * Tick layout and tick-label pruning for axes.
 *
 * The geometry (tick values, tick-mark endpoints, label placement) is pure and
 * is written as functions.  The pruning filters change the visibility of
 * rendered elements in place; each is a method over an `array<Visibility>`
 * whose new contents are tied to a specification function on sequences, and
 * the properties the filters promise are lemmas about those functions.
 */
module TickUtils {

  // ---------------------------------------------------------------------------
  // Orientation and scales
  // ---------------------------------------------------------------------------

  /** The edge of the plot an axis is attached to. */
  datatype Orientation = Top | Bottom | Left | Right

  predicate IsHorizontal(o: Orientation)
  {
    o == Top || o == Bottom
  }

  function Min(a: real, b: real): real { if a <= b then a else b }

  function Max(a: real, b: real): real { if a <= b then b else a }

  /**
   * The part of a scale the tick engine looks at: its two capability checks,
   * its domain and the representative values `ticks()` proposes.
   */
  datatype Scale = Scale(isQuantitative: bool, isInterpolatedColor: bool, domain: seq<real>, ticks: seq<real>)

  /** `v` lies between the two ends of `domain`, inclusive, in either order. */
  predicate InDomain(v: real, domain: seq<real>)
  {
    |domain| > 0 && Min(domain[0], domain[|domain| - 1]) <= v <= Max(domain[0], domain[|domain| - 1])
  }

  predicate StrictlyIncreasing(s: seq<real>)
  {
    forall i, j :: 0 <= i < j < |s| ==> s[i] < s[j]
  }

  /** `a` is `b` with some of its elements left out, the rest kept in order. */
  predicate Subsequence(a: seq<real>, b: seq<real>)
  {
    |a| == 0 ||
    (|b| > 0 && ((a[0] == b[0] && Subsequence(a[1..], b[1..])) || Subsequence(a, b[1..])))
  }

  /**
   * The values of `values` that lie in `domain`, in their original order and
   * with their multiplicity.
   */
  function ValuesInDomain(values: seq<real>, domain: seq<real>): (r: seq<real>)
    ensures Subsequence(r, values)
    ensures forall v :: multiset(r)[v] == if InDomain(v, domain) then multiset(values)[v] else 0
    ensures StrictlyIncreasing(values) ==> StrictlyIncreasing(r)
  {
    if |values| == 0 then []
    else
      var rest := ValuesInDomain(values[1..], domain);
      assert values == [values[0]] + values[1..];
      var r := if InDomain(values[0], domain) then [values[0]] + rest else rest;
      assert Subsequence(r, values) by {
        if InDomain(values[0], domain) {
          assert r[1..] == rest;
        } else {
          assert |rest| > 0 ==> multiset(rest)[rest[0]] > 0;
        }
      }
      SubsequenceKeepsIncreasing(r, values);
      r
  }

  lemma {:induction false} SubsequenceMembers(a: seq<real>, b: seq<real>)
    requires Subsequence(a, b)
    ensures forall x :: x in a ==> x in b
  {
    if |a| > 0 {
      if a[0] == b[0] && Subsequence(a[1..], b[1..]) {
        SubsequenceMembers(a[1..], b[1..]);
        assert a == [a[0]] + a[1..];
        assert b == [b[0]] + b[1..];
      } else {
        SubsequenceMembers(a, b[1..]);
        assert b == [b[0]] + b[1..];
      }
    }
  }

  /** Leaving elements out of a strictly increasing sequence keeps it strictly increasing. */
  lemma {:induction false} SubsequenceKeepsIncreasing(a: seq<real>, b: seq<real>)
    requires Subsequence(a, b)
    ensures StrictlyIncreasing(b) ==> StrictlyIncreasing(a)
  {
    if |a| > 0 && StrictlyIncreasing(b) {
      assert StrictlyIncreasing(b[1..]);
      if a[0] == b[0] && Subsequence(a[1..], b[1..]) {
        SubsequenceKeepsIncreasing(a[1..], b[1..]);
        SubsequenceMembers(a[1..], b[1..]);
        forall i, j | 0 <= i < j < |a| ensures a[i] < a[j] {
          if i == 0 {
            assert a[j] == a[1..][j - 1] && a[j] in b[1..];
          } else {
            assert a[i] == a[1..][i - 1] && a[j] == a[1..][j - 1];
          }
        }
      } else {
        SubsequenceKeepsIncreasing(a, b[1..]);
      }
    }
  }

  /**
   * The values to label: the domain itself for a scale that is not
   * quantitative (or is an interpolated colour scale), otherwise the scale's
   * proposed ticks that fall inside the domain, in their order.
   */
  function GetTickValues(scale: Scale): (r: seq<real>)
    ensures !scale.isQuantitative || scale.isInterpolatedColor ==> r == scale.domain
    ensures scale.isQuantitative && !scale.isInterpolatedColor ==>
      Subsequence(r, scale.ticks) &&
      (forall v :: multiset(r)[v] == if InDomain(v, scale.domain) then multiset(scale.ticks)[v] else 0)
    ensures scale.isQuantitative && !scale.isInterpolatedColor && StrictlyIncreasing(scale.ticks) ==>
      StrictlyIncreasing(r)
  {
    if !scale.isQuantitative || scale.isInterpolatedColor then scale.domain
    else ValuesInDomain(scale.ticks, scale.domain)
  }

  // ---------------------------------------------------------------------------
  // Tick-mark geometry
  // ---------------------------------------------------------------------------

  /** An endpoint coordinate: a constant, or the scale applied to the tick's datum. */
  datatype Coord = Fixed(value: real) | Scaled

  function CoordAt(c: Coord, scale: real -> real, d: real): real
  {
    match c
    case Fixed(v) => v
    case Scaled => scale(d)
  }

  /** The endpoints of a tick-mark segment. */
  datatype TickMarkAttrs = TickMarkAttrs(x1: Coord, y1: Coord, x2: Coord, y2: Coord)

  /** The coordinate of the axis line: the edge of the axis that faces the plot. */
  function AxisLine(width: real, height: real, o: Orientation): real
  {
    match o
    case Bottom => 0.0
    case Top => height
    case Left => width
    case Right => 0.0
  }

  /** The direction, across the axis, that points away from the plot. */
  function Outward(o: Orientation): real
  {
    match o
    case Bottom => 1.0
    case Top => -1.0
    case Left => -1.0
    case Right => 1.0
  }

  function GenerateTickMarkAttrHash(width: real, height: real, o: Orientation, tickLength: real): (h: TickMarkAttrs)
    ensures IsHorizontal(o) ==> h.x1 == Scaled && h.x2 == Scaled && h.y1.Fixed? && h.y2.Fixed?
    ensures !IsHorizontal(o) ==> h.y1 == Scaled && h.y2 == Scaled && h.x1.Fixed? && h.x2.Fixed?
  {
    var start :=
      if IsHorizontal(o) then TickMarkAttrs(Scaled, Fixed(0.0), Scaled, Fixed(0.0))
      else TickMarkAttrs(Fixed(0.0), Scaled, Fixed(0.0), Scaled);
    match o
    case Bottom => start.(y2 := Fixed(tickLength))
    case Top => start.(y1 := Fixed(height), y2 := Fixed(height - tickLength))
    case Left => start.(x1 := Fixed(width), x2 := Fixed(width - tickLength))
    case Right => start.(x2 := Fixed(tickLength))
  }

  /**
   * Every tick mark sits at its tick's scaled position, starts on the axis
   * line and runs `tickLength` away from the plot.
   */
  lemma TickMarkSpansTickLength(width: real, height: real, o: Orientation, tickLength: real, scale: real -> real, d: real)
    ensures var h := GenerateTickMarkAttrHash(width, height, o, tickLength);
      if IsHorizontal(o) then
        CoordAt(h.x1, scale, d) == scale(d) && CoordAt(h.x2, scale, d) == scale(d) &&
        CoordAt(h.y1, scale, d) == AxisLine(width, height, o) &&
        CoordAt(h.y2, scale, d) == AxisLine(width, height, o) + Outward(o) * tickLength
      else
        CoordAt(h.y1, scale, d) == scale(d) && CoordAt(h.y2, scale, d) == scale(d) &&
        CoordAt(h.x1, scale, d) == AxisLine(width, height, o) &&
        CoordAt(h.x2, scale, d) == AxisLine(width, height, o) + Outward(o) * tickLength
  {
  }

  // ---------------------------------------------------------------------------
  // Tick-label geometry
  // ---------------------------------------------------------------------------

  datatype LabelAttrs = LabelAttrs(x: Coord, y: Coord, dx: string, dy: string)

  /** The translation applied to the whole group of labels. */
  datatype Translation = Translation(x: real, y: real)

  datatype TickLabelLayout = TickLabelLayout(
    tickMarkAttrHash: TickMarkAttrs,
    textAnchor: string,
    labelAttrs: LabelAttrs,
    labelGroupTransform: Translation)

  /** What the choice of positioning contributes before the orientation is applied. */
  datatype PositioningOffsets = PositioningOffsets(
    anchor: string, dy: string, transformX: real, transformY: real, shiftX: real, shiftY: real)

  function OffsetsFor(horizontal: bool, tickMarkLength: real, padding: real, positioning: string): PositioningOffsets
  {
    var initial := PositioningOffsets("middle", "0.3em", 0.0, 0.0, 0.0, 0.0);
    if horizontal then
      if positioning == "left" then initial.(anchor := "end", transformX := -padding, shiftY := padding)
      else if positioning == "center" then initial.(shiftY := tickMarkLength + padding)
      else if positioning == "right" then initial.(anchor := "start", transformX := padding, shiftY := padding)
      else initial
    else
      if positioning == "top" then initial.(dy := "-0.3em", shiftX := padding, transformY := -padding)
      else if positioning == "center" then initial.(shiftX := tickMarkLength + padding)
      else if positioning == "bottom" then initial.(dy := "1em", shiftX := padding, transformY := padding)
      else initial
  }

  /** The edge positionings an axis of the given family accepts. */
  function EdgePositionings(horizontal: bool): set<string>
  {
    if horizontal then {"left", "right"} else {"top", "bottom"}
  }

  /**
   * How far the label group is pushed away from the axis line: past the mark
   * and the padding when centred, by the padding alone at an edge, and not at
   * all for a positioning the axis family does not know.
   */
  function LabelGroupShift(horizontal: bool, tickMarkLength: real, padding: real, positioning: string): real
  {
    if positioning == "center" then tickMarkLength + padding
    else if positioning in EdgePositionings(horizontal) then padding
    else 0.0
  }

  /** The coordinate `generateTicks` reads as a number is a constant. */
  predicate HasFixedBase(h: TickMarkAttrs, o: Orientation)
  {
    if IsHorizontal(o) then h.y1.Fixed? else h.x1.Fixed?
  }

  function GenerateTicks(h: TickMarkAttrs, tickMarkLength: real, o: Orientation, padding: real, positioning: string): (r: TickLabelLayout)
    requires HasFixedBase(h, o)
    ensures r.tickMarkAttrHash == h
    // text anchor
    ensures o == Left ==> r.textAnchor == "end"
    ensures o == Right ==> r.textAnchor == "start"
    ensures IsHorizontal(o) ==>
      r.textAnchor == (if positioning == "left" then "end" else if positioning == "right" then "start" else "middle")
    // per-label attributes
    ensures r.labelAttrs.dx == "0em"
    ensures o == Bottom ==> r.labelAttrs.dy == "0.95em"
    ensures o == Top ==> r.labelAttrs.dy == "-.25em"
    ensures !IsHorizontal(o) ==>
      r.labelAttrs.dy == (if positioning == "top" then "-0.3em" else if positioning == "bottom" then "1em" else "0.3em")
    ensures IsHorizontal(o) ==> r.labelAttrs.x == h.x1 && r.labelAttrs.y == Fixed(0.0)
    ensures !IsHorizontal(o) ==> r.labelAttrs.y == h.y1 && r.labelAttrs.x == Fixed(0.0)
    // group translation, across the axis
    ensures var shift := LabelGroupShift(IsHorizontal(o), tickMarkLength, padding, positioning);
      match o
      case Bottom => r.labelGroupTransform.y == h.y1.value + shift
      case Top => r.labelGroupTransform.y == h.y1.value - shift
      case Left => r.labelGroupTransform.x == h.x1.value - shift
      case Right => r.labelGroupTransform.x == h.x1.value + shift
    // group translation, along the axis
    ensures IsHorizontal(o) ==>
      r.labelGroupTransform.x == (if positioning == "left" then -padding else if positioning == "right" then padding else 0.0)
    ensures !IsHorizontal(o) ==>
      r.labelGroupTransform.y == (if positioning == "top" then -padding else if positioning == "bottom" then padding else 0.0)
  {
    var off := OffsetsFor(IsHorizontal(o), tickMarkLength, padding, positioning);
    var attrs := LabelAttrs(Fixed(0.0), Fixed(0.0), "0em", off.dy);
    match o
    case Bottom =>
      TickLabelLayout(h, off.anchor, attrs.(x := h.x1, dy := "0.95em"), Translation(off.transformX, h.y1.value + off.shiftY))
    case Top =>
      TickLabelLayout(h, off.anchor, attrs.(x := h.x1, dy := "-.25em"), Translation(off.transformX, h.y1.value - off.shiftY))
    case Left =>
      TickLabelLayout(h, "end", attrs.(y := h.y1), Translation(h.x1.value - off.shiftX, off.transformY))
    case Right =>
      TickLabelLayout(h, "start", attrs.(y := h.y1), Translation(h.x1.value + off.shiftX, off.transformY))
  }

  /** The group translation as the `transform` attribute text. */
  function LabelGroupTransformText(t: Translation, numberText: real -> string): (text: string)
  {
    "translate(" + numberText(t.x) + ", " + numberText(t.y) + ")"
  }

  /**
   * Two texts built by splicing a comma-free part into the same frame are
   * equal only if both parts are.
   */
  lemma {:induction false} SplicedPartsEqual(pre: string, a: string, b: string, a': string, b': string)
    requires ',' !in a && ',' !in a'
    requires pre + a + ", " + b + ")" == pre + a' + ", " + b' + ")"
    ensures a == a' && b == b'
  {
    var s := pre + a + ", " + b + ")";
    var s' := pre + a' + ", " + b' + ")";
    assert forall i :: 0 <= i < |a| ==> s[|pre| + i] == a[i];
    assert forall i :: 0 <= i < |a'| ==> s'[|pre| + i] == a'[i];
    assert s[|pre| + |a|] == ',' && s'[|pre| + |a'|] == ',';
    if |a| != |a'| {
      assert false;
    }
    assert a == a';
    assert |b| == |b'|;
    forall i | 0 <= i < |b| ensures b[i] == b'[i] {
      assert s[|pre| + |a| + 2 + i] == b[i];
      assert s'[|pre| + |a'| + 2 + i] == b'[i];
    }
  }

  /**
   * The transform text determines the translation, when the x coordinates are
   * written without a comma and each coordinate is recovered from its text.
   */
  lemma TransformTextDeterminesTranslation(t: Translation, t': Translation, numberText: real -> string)
    requires numberText(t.x) == numberText(t'.x) ==> t.x == t'.x
    requires numberText(t.y) == numberText(t'.y) ==> t.y == t'.y
    requires ',' !in numberText(t.x) && ',' !in numberText(t'.x)
    requires LabelGroupTransformText(t, numberText) == LabelGroupTransformText(t', numberText)
    ensures t == t'
  {
    SplicedPartsEqual("translate(", numberText(t.x), numberText(t.y), numberText(t'.x), numberText(t'.y));
  }

  /** The position of the label group across the axis. */
  function AcrossAxis(t: Translation, o: Orientation): real
  {
    if IsHorizontal(o) then t.y else t.x
  }

  /**
   * For marks no longer than the length the labels are shifted by: with
   * centred labels the label group starts at least `padding` beyond the far
   * end of the tick marks (exactly `padding` when the two lengths agree);
   * with edge labels it starts `padding` from the axis line, beside the marks.
   */
  lemma LabelsClearTickMarks(width: real, height: real, o: Orientation, markLength: real, tickMarkLength: real,
                             padding: real, positioning: string)
    requires markLength <= tickMarkLength
    ensures var h := GenerateTickMarkAttrHash(width, height, o, markLength);
      HasFixedBase(h, o) &&
      var t := GenerateTicks(h, tickMarkLength, o, padding, positioning).labelGroupTransform;
      var farEnd := if IsHorizontal(o) then h.y2.value else h.x2.value;
      (positioning == "center" ==>
        AcrossAxis(t, o) == farEnd + Outward(o) * (tickMarkLength - markLength + padding) &&
        Outward(o) * (AcrossAxis(t, o) - farEnd) >= padding) &&
      (positioning in EdgePositionings(IsHorizontal(o)) ==>
        AcrossAxis(t, o) == AxisLine(width, height, o) + Outward(o) * padding)
  {
  }

  // ---------------------------------------------------------------------------
  // Visibility
  // ---------------------------------------------------------------------------

  datatype Visibility = Inherit | Visible | Hidden

  predicate IsShown(v: Visibility)
  {
    v == Inherit || v == Visible
  }

  predicate StrictlyIncreasingNat(s: seq<nat>)
  {
    forall i, j :: 0 <= i < j < |s| ==> s[i] < s[j]
  }

  /** The positions, in order, of the elements whose visibility is shown. */
  function VisibleFilter(vis: seq<Visibility>): (idx: seq<nat>)
    ensures forall j :: 0 <= j < |idx| ==> idx[j] < |vis| && IsShown(vis[idx[j]])
    ensures forall p :: 0 <= p < |vis| && IsShown(vis[p]) ==> p in idx
    ensures StrictlyIncreasingNat(idx)
  {
    if |vis| == 0 then []
    else
      var last := |vis| - 1;
      var prefix := VisibleFilter(vis[..last]);
      if IsShown(vis[last]) then prefix + [last] else prefix
  }

  method ShowAllTickMarks(marks: array<Visibility>)
    modifies marks
    ensures forall i :: 0 <= i < marks.Length ==> marks[i] == Inherit
  {
    for i := 0 to marks.Length
      invariant forall j :: 0 <= j < i ==> marks[j] == Inherit
    {
      marks[i] := Inherit;
    }
  }

  /** `v` is the datum of some shown label. */
  predicate IsShownLabelDatum(v: real, labelData: seq<real>, labelVis: seq<Visibility>)
    requires |labelData| == |labelVis|
  {
    exists p :: 0 <= p < |labelVis| && IsShown(labelVis[p]) && labelData[p] == v
  }

  function MarksWithoutLabelHidden(marks: seq<Visibility>, markData: seq<real>, labelData: seq<real>, labelVis: seq<Visibility>): seq<Visibility>
    requires |marks| == |markData| && |labelData| == |labelVis|
  {
    seq(|marks|, i requires 0 <= i < |marks| =>
      if IsShownLabelDatum(markData[i], labelData, labelVis) then Hidden else marks[i])
  }

  /** The set of data of the shown labels, gathered over the visible labels. */
  method ShownLabelNumbers(labelData: seq<real>, labels: array<Visibility>) returns (labelNumbersShown: set<real>)
    requires labels.Length == |labelData|
    ensures forall v :: v in labelNumbersShown <==> IsShownLabelDatum(v, labelData, labels[..])
  {
    var shownIdx := VisibleFilter(labels[..]);
    labelNumbersShown := {};
    for j := 0 to |shownIdx|
      invariant forall v :: v in labelNumbersShown <==> exists t :: 0 <= t < j && labelData[shownIdx[t]] == v
    {
      labelNumbersShown := labelNumbersShown + {labelData[shownIdx[j]]};
    }
    forall v ensures v in labelNumbersShown <==> IsShownLabelDatum(v, labelData, labels[..]) {
      if v in labelNumbersShown {
        var t :| 0 <= t < |shownIdx| && labelData[shownIdx[t]] == v;
        assert IsShown(labels[..][shownIdx[t]]);
      }
      if IsShownLabelDatum(v, labelData, labels[..]) {
        var p :| 0 <= p < labels.Length && IsShown(labels[..][p]) && labelData[p] == v;
        assert p in shownIdx;
        var t :| 0 <= t < |shownIdx| && shownIdx[t] == p;
      }
    }
  }

  /**
   * Hides every mark whose datum is the datum of a shown label (the rule as
   * written; its name suggests the opposite).
   */
  method HideTickMarksWithoutLabel(markData: seq<real>, marks: array<Visibility>, labelData: seq<real>, labels: array<Visibility>)
    requires marks.Length == |markData| && labels.Length == |labelData|
    requires marks != labels
    modifies marks
    ensures marks[..] == MarksWithoutLabelHidden(old(marks[..]), markData, labelData, labels[..])
  {
    var labelNumbersShown := ShownLabelNumbers(labelData, labels);
    for i := 0 to marks.Length
      invariant forall j :: 0 <= j < i ==>
        marks[j] == if IsShownLabelDatum(markData[j], labelData, labels[..]) then Hidden else old(marks[j])
      invariant forall j :: i <= j < marks.Length ==> marks[j] == old(marks[j])
    {
      if markData[i] in labelNumbersShown {
        marks[i] := Hidden;
      }
    }
  }

  // ---------------------------------------------------------------------------
  // Boundary filters
  // ---------------------------------------------------------------------------

  /** A bounding client rectangle; `top` is above `bottom` on the screen. */
  datatype Rect = Rect(left: real, right: real, top: real, bottom: real)

  /** `inner` lies entirely within `outer`. */
  predicate Inside(inner: Rect, outer: Rect)
  {
    outer.left <= inner.left && outer.top <= inner.top && inner.right <= outer.right && inner.bottom <= outer.bottom
  }

  function EndLabelsHidden(vis: seq<Visibility>, rects: seq<Rect>, box: Rect): seq<Visibility>
    requires |rects| == |vis|
  {
    if |vis| == 0 then vis
    else
      var last := |vis| - 1;
      var afterFirst := if Inside(rects[0], box) then vis else vis[0 := Hidden];
      if Inside(rects[last], box) then afterFirst else afterFirst[last := Hidden]
  }

  /** Hides the first and the last label when they are not inside `box`. */
  method HideEndTickLabels(rects: seq<Rect>, labels: array<Visibility>, box: Rect)
    requires |rects| == labels.Length
    modifies labels
    ensures labels[..] == EndLabelsHidden(old(labels[..]), rects, box)
  {
    if labels.Length == 0 {
      return;
    }
    if !Inside(rects[0], box) {
      labels[0] := Hidden;
    }
    var last := labels.Length - 1;
    if !Inside(rects[last], box) {
      labels[last] := Hidden;
    }
  }

  /**
   * Only the two end labels can change: each is hidden exactly when it is not
   * inside the box, and every other label keeps its visibility.
   */
  lemma EndLabelsHiddenOnlyAtEnds(vis: seq<Visibility>, rects: seq<Rect>, box: Rect)
    requires |rects| == |vis|
    ensures var r := EndLabelsHidden(vis, rects, box);
      |r| == |vis| &&
      forall p :: 0 <= p < |vis| ==>
        r[p] == if (p == 0 || p == |vis| - 1) && !Inside(rects[p], box) then Hidden else vis[p]
  {
  }

  function OverflowHidden(vis: seq<Visibility>, rects: seq<Rect>, box: Rect): seq<Visibility>
    requires |rects| == |vis|
  {
    seq(|vis|, i requires 0 <= i < |vis| => if Inside(rects[i], box) then vis[i] else Hidden)
  }

  /** Hides every label that is not inside `box`. */
  method HideOverflowingTickLabels(rects: seq<Rect>, labels: array<Visibility>, box: Rect)
    requires |rects| == labels.Length
    modifies labels
    ensures labels[..] == OverflowHidden(old(labels[..]), rects, box)
  {
    if labels.Length == 0 {
      return;
    }
    for i := 0 to labels.Length
      invariant forall j :: 0 <= j < i ==> labels[j] == if Inside(rects[j], box) then old(labels[j]) else Hidden
      invariant forall j :: i <= j < labels.Length ==> labels[j] == old(labels[j])
    {
      if !Inside(rects[i], box) {
        labels[i] := Hidden;
      }
    }
  }

  // ---------------------------------------------------------------------------
  // Overlap resolution
  // ---------------------------------------------------------------------------

  /** Labels away from their marks need three times the padding. */
  function EffectivePadding(positioning: string, defaultPadding: real): real
  {
    if positioning != "center" then defaultPadding * 3.0 else defaultPadding
  }

  /** `next` starts too close to `curr` along the axis. */
  predicate Collides(curr: Rect, next: Rect, horizontal: bool, padding: real)
  {
    if horizontal then curr.right + padding >= next.left
    else curr.top - padding <= next.bottom
  }

  predicate CollidesAt(rects: seq<Rect>, i: nat, k: nat, horizontal: bool, padding: real)
    requires i + k < |rects|
  {
    Collides(rects[i], rects[i + k], horizontal, padding)
  }

  /** Keeping every `k`-th rectangle still leaves two neighbours colliding. */
  predicate OverlapsAt(k: nat, rects: seq<Rect>, horizontal: bool, padding: real)
    requires k >= 1
  {
    exists i: nat :: i < |rects| - k && i % k == 0 && CollidesAt(rects, i, k, horizontal, padding)
  }

  /** A stride at least as long as the sequence keeps no pair to compare. */
  lemma NoOverlapAtLongStride(k: nat, rects: seq<Rect>, horizontal: bool, padding: real)
    requires k >= 1 && k >= |rects|
    ensures !OverlapsAt(k, rects, horizontal, padding)
  {
  }

  // ---------------------------------------------------------------------------
  // Strides: facts about multiples of a stride
  // ---------------------------------------------------------------------------

  lemma {:induction false} MulGrows(a: int, k: nat)
    ensures a >= 1 ==> a * k >= k
  {
    if a > 1 {
      MulGrows(a - 1, k);
      assert a * k == (a - 1) * k + k;
    }
  }

  /** Quotient and remainder are determined by the division equation. */
  lemma DivModUnique(x: nat, k: nat, q: nat, r: nat)
    requires k >= 1 && x == q * k + r && r < k
    ensures x % k == r && x / k == q
  {
    var q', r' := x / k, x % k;
    assert x == q' * k + r';
    MulGrows(q' - q, k);
    MulGrows(q - q', k);
    assert (q' - q) * k == q' * k - q * k;
    assert (q - q') * k == q * k - q' * k;
  }

  lemma AddStrideKeepsMultiple(i: nat, k: nat)
    requires k >= 1 && i % k == 0
    ensures (i + k) % k == 0
  {
    var q := i / k;
    assert i == q * k;
    assert i + k == (q + 1) * k + 0;
    DivModUnique(i + k, k, q + 1, 0);
  }

  /** Two distinct multiples of a stride are at least a stride apart. */
  lemma MultiplesStrideApart(a: nat, b: nat, k: nat)
    requires k >= 1 && a % k == 0 && b % k == 0 && a < b
    ensures a + k <= b
  {
    var qa, qb := a / k, b / k;
    assert a == qa * k;
    assert b == qb * k;
    MulGrows(qa - qb, k);
    MulGrows(qb - qa, k);
    assert (qa - qb) * k == qa * k - qb * k;
    assert (qb - qa) * k == qb * k - qa * k;
  }

  /** Below the stride, an index is its own remainder. */
  lemma SmallIndexRemainder(j: nat, k: nat)
    requires j < k
    ensures j % k == j
  {
    DivModUnique(j, k, 0, j);
  }

  method HasOverlapWithInterval(interval: nat, rects: seq<Rect>, horizontal: bool, positioning: string, defaultPadding: real)
    returns (overlap: bool)
    requires interval >= 1
    ensures overlap == OverlapsAt(interval, rects, horizontal, EffectivePadding(positioning, defaultPadding))
  {
    var padding := defaultPadding;
    if positioning != "center" {
      padding := padding * 3.0;
    }
    var i: nat := 0;
    while i < |rects| - interval
      invariant i % interval == 0
      invariant forall j: nat :: j < i && j < |rects| - interval && j % interval == 0 ==>
        !CollidesAt(rects, j, interval, horizontal, padding)
      decreases |rects| - i
    {
      if Collides(rects[i], rects[i + interval], horizontal, padding) {
        assert CollidesAt(rects, i, interval, horizontal, padding);
        return true;
      }
      forall j: nat | i < j && j % interval == 0 ensures i + interval <= j {
        MultiplesStrideApart(i, j, interval);
      }
      AddStrideKeepsMultiple(i, interval);
      i := i + interval;
    }
    return false;
  }

  /** `k` is the smallest stride at which no two kept neighbours collide. */
  predicate IsLeastClearStride(k: nat, rects: seq<Rect>, horizontal: bool, padding: real)
  {
    k >= 1 && !OverlapsAt(k, rects, horizontal, padding) &&
    forall j: nat :: 1 <= j < k ==> OverlapsAt(j, rects, horizontal, padding)
  }

  /** The stride search, from stride `k` upwards. */
  function StrideSearch(rects: seq<Rect>, horizontal: bool, padding: real, k: nat): (r: nat)
    requires k >= 1
    requires forall j: nat :: 1 <= j < k ==> OverlapsAt(j, rects, horizontal, padding)
    ensures IsLeastClearStride(r, rects, horizontal, padding)
    ensures k <= r && (r <= |rects| || r == k)
    decreases |rects| - k
  {
    if !OverlapsAt(k, rects, horizontal, padding) then k
    else StrideSearch(rects, horizontal, padding, k + 1)
  }

  function LeastClearStride(rects: seq<Rect>, horizontal: bool, padding: real): (k: nat)
    ensures IsLeastClearStride(k, rects, horizontal, padding)
    ensures 1 <= k <= Max1(|rects|)
  {
    StrideSearch(rects, horizontal, padding, 1)
  }

  function Max1(n: nat): nat { if n < 1 then 1 else n }

  /** The least clear stride is unique. */
  lemma LeastClearStrideUnique(k: nat, k': nat, rects: seq<Rect>, horizontal: bool, padding: real)
    requires IsLeastClearStride(k, rects, horizontal, padding)
    requires IsLeastClearStride(k', rects, horizontal, padding)
    ensures k == k'
  {
    assert !OverlapsAt(k, rects, horizontal, padding);
    assert !OverlapsAt(k', rects, horizontal, padding);
  }

  /** The rectangles of the labels at the given positions. */
  function RectsAt(idx: seq<nat>, rects: seq<Rect>): (r: seq<Rect>)
    requires forall j :: 0 <= j < |idx| ==> idx[j] < |rects|
    ensures |r| == |idx|
  {
    seq(|idx|, j requires 0 <= j < |idx| => rects[idx[j]])
  }

  /** Position `p` is the `j`-th shown label for some `j` off the stride. */
  predicate OffStride(idx: seq<nat>, k: nat, p: nat)
    requires k >= 1
  {
    exists j :: 0 <= j < |idx| && idx[j] == p && j % k != 0
  }

  /** The stride the resolver settles on for the labels currently shown. */
  function ChosenStride(vis: seq<Visibility>, rects: seq<Rect>, horizontal: bool, padding: real): nat
    requires |rects| == |vis|
  {
    LeastClearStride(RectsAt(VisibleFilter(vis), rects), horizontal, padding)
  }

  function OverlapHidden(vis: seq<Visibility>, rects: seq<Rect>, horizontal: bool, padding: real): seq<Visibility>
    requires |rects| == |vis|
  {
    var idx := VisibleFilter(vis);
    var k := ChosenStride(vis, rects, horizontal, padding);
    seq(|vis|, p requires 0 <= p < |vis| => if OffStride(idx, k, p) then Hidden else vis[p])
  }

  /**
   * Thins the shown labels to every k-th one, for the least stride k at which
   * the kept labels do not collide.
   */
  method HideOverlappingTickLabels(rects: seq<Rect>, labels: array<Visibility>, o: Orientation, positioning: string, defaultPadding: real)
    requires |rects| == labels.Length
    modifies labels
    ensures labels[..] == OverlapHidden(old(labels[..]), rects, IsHorizontal(o), EffectivePadding(positioning, defaultPadding))
  {
    var visibleTickLabels := VisibleFilter(labels[..]);
    var visibleTickLabelRects := RectsAt(visibleTickLabels, rects);
    var interval := LeastClearInterval(visibleTickLabelRects, o, positioning, defaultPadding);
    HideOffStride(labels, visibleTickLabels, interval);
  }

  /**
   * Tries the intervals 1, 2, ... in turn and stops at the first one without
   * overlap, or at the number of rectangles.
   */
  method LeastClearInterval(rects: seq<Rect>, o: Orientation, positioning: string, defaultPadding: real)
    returns (interval: nat)
    ensures interval == LeastClearStride(rects, IsHorizontal(o), EffectivePadding(positioning, defaultPadding))
  {
    ghost var padding := EffectivePadding(positioning, defaultPadding);
    interval := 1;
    var overlap := HasOverlapWithInterval(interval, rects, IsHorizontal(o), positioning, defaultPadding);
    while overlap && interval < |rects|
      invariant 1 <= interval <= Max1(|rects|)
      invariant forall j: nat :: 1 <= j < interval ==> OverlapsAt(j, rects, IsHorizontal(o), padding)
      invariant overlap == OverlapsAt(interval, rects, IsHorizontal(o), padding)
      decreases |rects| - interval
    {
      interval := interval + 1;
      overlap := HasOverlapWithInterval(interval, rects, IsHorizontal(o), positioning, defaultPadding);
    }
    if overlap {
      NoOverlapAtLongStride(interval, rects, IsHorizontal(o), padding);
    }
    LeastClearStrideUnique(interval, LeastClearStride(rects, IsHorizontal(o), padding), rects, IsHorizontal(o), padding);
  }

  /** Hides the shown label at visible-index `j` unless `j` is a multiple of `interval`. */
  method HideOffStride(labels: array<Visibility>, visibleTickLabels: seq<nat>, interval: nat)
    requires interval >= 1
    requires forall j :: 0 <= j < |visibleTickLabels| ==> visibleTickLabels[j] < labels.Length
    requires StrictlyIncreasingNat(visibleTickLabels)
    modifies labels
    ensures forall p :: 0 <= p < labels.Length ==>
      labels[p] == if OffStride(visibleTickLabels, interval, p) then Hidden else old(labels[p])
  {
    for j := 0 to |visibleTickLabels|
      invariant forall t :: 0 <= t < j ==>
        labels[visibleTickLabels[t]] == if t % interval != 0 then Hidden else old(labels[visibleTickLabels[t]])
      invariant forall p :: 0 <= p < labels.Length && p !in visibleTickLabels[..j] ==> labels[p] == old(labels[p])
    {
      if j % interval != 0 {
        labels[visibleTickLabels[j]] := Hidden;
      }
      assert visibleTickLabels[..j + 1] == visibleTickLabels[..j] + [visibleTickLabels[j]];
    }
    assert visibleTickLabels[..|visibleTickLabels|] == visibleTickLabels;
    forall p | 0 <= p < labels.Length
      ensures labels[p] == if OffStride(visibleTickLabels, interval, p) then Hidden else old(labels[p])
    {
      if t :| 0 <= t < |visibleTickLabels| && visibleTickLabels[t] == p {
        forall t' | 0 <= t' < |visibleTickLabels| && visibleTickLabels[t'] == p ensures t' == t {
        }
      }
    }
  }
  // ---------------------------------------------------------------------------
  // What overlap resolution guarantees
  // ---------------------------------------------------------------------------

  /**
   * Overlap resolution hides the shown label at visible-index j exactly when
   * j is not a multiple of the chosen stride; labels that were not shown are
   * untouched, none is made visible, and the first shown label stays.
   */
  lemma OverlapHiddenAt(vis: seq<Visibility>, rects: seq<Rect>, horizontal: bool, padding: real)
    requires |rects| == |vis|
    ensures var r := OverlapHidden(vis, rects, horizontal, padding);
      var idx := VisibleFilter(vis);
      var k := ChosenStride(vis, rects, horizontal, padding);
      |r| == |vis| &&
      (forall j :: 0 <= j < |idx| ==> r[idx[j]] == if j % k != 0 then Hidden else vis[idx[j]]) &&
      (forall p :: 0 <= p < |vis| && !IsShown(vis[p]) ==> r[p] == vis[p]) &&
      (forall p :: 0 <= p < |vis| ==> r[p] == vis[p] || r[p] == Hidden) &&
      (|idx| > 0 ==> r[idx[0]] == vis[idx[0]])
  {
    var r := OverlapHidden(vis, rects, horizontal, padding);
    var idx := VisibleFilter(vis);
    var k := ChosenStride(vis, rects, horizontal, padding);
    forall j | 0 <= j < |idx| ensures r[idx[j]] == if j % k != 0 then Hidden else vis[idx[j]] {
      forall j' | 0 <= j' < |idx| && idx[j'] == idx[j] ensures j' == j {
      }
    }
    forall p | 0 <= p < |vis| && !IsShown(vis[p]) ensures r[p] == vis[p] {
      assert !OffStride(idx, k, p);
    }
    if |idx| > 0 {
      assert 0 % k == 0;
    }
  }

  /** `p` and `q` are shown and no label between them is. */
  predicate ShownNeighbours(vis: seq<Visibility>, p: nat, q: nat)
  {
    p < q < |vis| && IsShown(vis[p]) && IsShown(vis[q]) &&
    forall m :: p < m < q ==> !IsShown(vis[m])
  }

  /** A label that survives overlap resolution is a shown label whose visible-index lies on the stride. */
  lemma SurvivorOnStride(vis: seq<Visibility>, rects: seq<Rect>, horizontal: bool, padding: real, p: nat)
    returns (a: nat)
    requires |rects| == |vis|
    requires p < |vis| && IsShown(OverlapHidden(vis, rects, horizontal, padding)[p])
    ensures a < |VisibleFilter(vis)| && VisibleFilter(vis)[a] == p
    ensures a % ChosenStride(vis, rects, horizontal, padding) == 0
  {
    var idx := VisibleFilter(vis);
    OverlapHiddenAt(vis, rects, horizontal, padding);
    assert IsShown(vis[p]) && p in idx;
    a :| 0 <= a < |idx| && idx[a] == p;
  }

  /** Shown labels one stride apart in the visible order do not collide. */
  lemma StrideNeighboursClear(vis: seq<Visibility>, rects: seq<Rect>, horizontal: bool, padding: real, a: nat)
    requires |rects| == |vis|
    requires a % ChosenStride(vis, rects, horizontal, padding) == 0
    requires a + ChosenStride(vis, rects, horizontal, padding) < |VisibleFilter(vis)|
    ensures var idx := VisibleFilter(vis);
      !Collides(rects[idx[a]], rects[idx[a + ChosenStride(vis, rects, horizontal, padding)]], horizontal, padding)
  {
    var idx := VisibleFilter(vis);
    var k := ChosenStride(vis, rects, horizontal, padding);
    var kept := RectsAt(idx, rects);
    assert !OverlapsAt(k, kept, horizontal, padding);
    assert !CollidesAt(kept, a, k, horizontal, padding);
  }

  /** After overlap resolution no two neighbouring shown labels collide. */
  lemma ThinningRemovesOverlap(vis: seq<Visibility>, rects: seq<Rect>, horizontal: bool, padding: real, p: nat, q: nat)
    requires |rects| == |vis|
    requires ShownNeighbours(OverlapHidden(vis, rects, horizontal, padding), p, q)
    ensures !Collides(rects[p], rects[q], horizontal, padding)
  {
    var r := OverlapHidden(vis, rects, horizontal, padding);
    var idx := VisibleFilter(vis);
    var k := ChosenStride(vis, rects, horizontal, padding);
    var a := SurvivorOnStride(vis, rects, horizontal, padding, p);
    var b := SurvivorOnStride(vis, rects, horizontal, padding, q);
    assert a < b;
    MultiplesStrideApart(a, b, k);
    // the next label on the stride after p is already q
    if a + k < |idx| {
      AddStrideKeepsMultiple(a, k);
      OverlapHiddenAt(vis, rects, horizontal, padding);
      assert IsShown(r[idx[a + k]]);
      assert p < idx[a + k];
      assert q <= idx[a + k];
    }
    assert b == a + k;
    StrideNeighboursClear(vis, rects, horizontal, padding, a);
  }

  /** When the stride reaches the number of shown labels only the first survives. */
  lemma LargeStrideKeepsFirstOnly(vis: seq<Visibility>, rects: seq<Rect>, horizontal: bool, padding: real)
    requires |rects| == |vis|
    requires ChosenStride(vis, rects, horizontal, padding) >= |VisibleFilter(vis)|
    ensures var r := OverlapHidden(vis, rects, horizontal, padding);
      var idx := VisibleFilter(vis);
      forall j :: 0 < j < |idx| ==> r[idx[j]] == Hidden
  {
    var idx := VisibleFilter(vis);
    var k := ChosenStride(vis, rects, horizontal, padding);
    OverlapHiddenAt(vis, rects, horizontal, padding);
    forall j | 0 < j < |idx| ensures j % k != 0 {
      SmallIndexRemainder(j, k);
    }
  }
}
