/**
 * The symbol drawer: it draws one path per datum and, at each draw step,
 * rewrites the attribute-to-projector map so that a symbol is placed by a
 * single "transform" (translate to the point, scale by the radius) and
 * shaped by a "d" projector.
 *
 * Projectors are opaque functions of a datum and its index.  The text a
 * number is rendered as is the function `show`; the number a text is read
 * as is the function `parse`.
 */
module SymbolDrawer {

  datatype Option<T> = None | Some(value: T)

  /** What a projector yields: a number or a text. */
  datatype Value = Num(n: real) | Text(s: string)

  type Projector<!D> = (D, int) -> Value

  datatype Point = Point(x: Value, y: Value)

  /** A drawn path: the datum bound to it, its classes and its static fill. */
  datatype Path<!D> = Path(datum: D, classes: set<string>, fill: Option<Projector<D>>)

  /** The text a value contributes to a string concatenation. */
  function Str(v: Value, show: real -> string): string
  {
    match v
    case Num(n) => show(n)
    case Text(s) => s
  }

  /** The number a value stands for in arithmetic. */
  function AsNumber(v: Value, parse: string -> real): real
  {
    match v
    case Num(n) => n
    case Text(s) => parse(s)
  }

  /** The transform text: translate to (x, y), then scale by r / 50. */
  function TransformText(x: Value, y: Value, r: Value, show: real -> string, parse: string -> real): string
  {
    "translate(" + Str(x, show) + "," + Str(y, show) + ") " + "scale(" + show(AsNumber(r, parse) / 50.0) + ")"
  }

  /** The projector that places a symbol at (x, y) with radius r. */
  function TransformProjector<D>(x: Projector<D>, y: Projector<D>, r: Projector<D>,
                                 show: real -> string, parse: string -> real): Projector<D>
  {
    (datum: D, index: int) => Text(TransformText(x(datum, index), y(datum, index), r(datum, index), show, parse))
  }

  /** The keys a draw step consumes. */
  predicate HasSymbolKeys<D>(m: map<string, Projector<D>>)
  {
    "x" in m && "y" in m && "r" in m && "symbol" in m
  }

  /**
   * The map a draw step hands to the animator: x, y, r and symbol are
   * consumed, "transform" places the symbol and "d" is the symbol projector;
   * every other key keeps its projector.
   */
  function SymbolAttributes<D>(m: map<string, Projector<D>>, show: real -> string, parse: string -> real): (r: map<string, Projector<D>>)
    requires HasSymbolKeys(m)
    ensures "x" !in r && "y" !in r && "r" !in r && "symbol" !in r
    ensures "transform" in r && r["transform"] == TransformProjector(m["x"], m["y"], m["r"], show, parse)
    ensures "d" in r && r["d"] == m["symbol"]
    ensures forall k :: k in m && k !in {"x", "y", "r", "symbol", "transform", "d"} ==> k in r && r[k] == m[k]
    ensures forall k :: k in r ==> k in m || k == "transform" || k == "d"
  {
    (m - {"x", "y", "r", "symbol"})["transform" := TransformProjector(m["x"], m["y"], m["r"], show, parse)]["d" := m["symbol"]]
  }

  /** The point a symbol is drawn at, read from the full projector map. */
  function PixelPoint<D>(m: map<string, Projector<D>>, datum: D, index: int): Point
    requires "x" in m && "y" in m
  {
    Point(m["x"](datum, index), m["y"](datum, index))
  }

  /** The symbol's transform translates it exactly to its pixel point. */
  lemma TransformTranslatesToPixelPoint<D>(m: map<string, Projector<D>>, show: real -> string, parse: string -> real, datum: D, index: int)
    requires HasSymbolKeys(m)
    ensures var p := PixelPoint(m, datum, index);
      SymbolAttributes(m, show, parse)["transform"](datum, index) ==
      Text(TransformText(p.x, p.y, m["r"](datum, index), show, parse))
  {
  }

  /** A symbol at (10, 20) with radius 100 is drawn with transform "translate(10,20) scale(2)". */
  lemma TransformExample<D>(m: map<string, Projector<D>>, show: real -> string, parse: string -> real, datum: D, index: int)
    requires HasSymbolKeys(m)
    requires m["x"](datum, index) == Num(10.0) && m["y"](datum, index) == Num(20.0) && m["r"](datum, index) == Num(100.0)
    requires show(10.0) == "10" && show(20.0) == "20" && show(2.0) == "2"
    ensures SymbolAttributes(m, show, parse)["transform"](datum, index) == Text("translate(10,20) scale(2)")
  {
    assert 100.0 / 50.0 == 2.0;
  }

  /**
   * Binds the data to the paths by position: kept paths take the new datum,
   * missing ones are added, surplus ones removed; all are classed "symbol".
   */
  function JoinPaths<D>(paths: seq<Path<D>>, data: seq<D>): (r: seq<Path<D>>)
    ensures |r| == |data|
    ensures forall i :: 0 <= i < |data| ==> r[i].datum == data[i] && "symbol" in r[i].classes
    ensures forall i :: 0 <= i < |data| && i < |paths| ==>
      r[i].classes == paths[i].classes + {"symbol"} && r[i].fill == paths[i].fill
    ensures forall i :: |paths| <= i < |data| ==> r[i].classes == {"symbol"} && r[i].fill == None
  {
    seq(|data|, i requires 0 <= i < |data| =>
      if i < |paths| then Path(data[i], paths[i].classes + {"symbol"}, paths[i].fill)
      else Path(data[i], {"symbol"}, None))
  }

  /** Every path gets the fill projector as a static attribute. */
  function FillPaths<D>(paths: seq<Path<D>>, fill: Projector<D>): (r: seq<Path<D>>)
    ensures |r| == |paths|
    ensures forall i :: 0 <= i < |paths| ==>
      r[i].datum == paths[i].datum && r[i].classes == paths[i].classes && r[i].fill == Some(fill)
  {
    seq(|paths|, i requires 0 <= i < |paths| => paths[i].(fill := Some(fill)))
  }

  class Symbol<D> {
    const show: real -> string
    const parse: string -> real
    /** The full projector map of the latest draw step. */
    var attrToProjector: map<string, Projector<D>>
    var paths: seq<Path<D>>
    /** The projector maps handed to the animator, in order. */
    ghost var animated: seq<map<string, Projector<D>>>

    constructor (show: real -> string, parse: string -> real)
      ensures this.show == show && this.parse == parse
      ensures attrToProjector == map[] && paths == [] && animated == []
    {
      this.show := show;
      this.parse := parse;
      attrToProjector := map[];
      paths := [];
      animated := [];
    }

    /** One path per datum. */
    method EnterData(data: seq<D>)
      modifies this`paths
      ensures paths == JoinPaths(old(paths), data)
      ensures |paths| == |data|
    {
      paths := JoinPaths(paths, data);
    }

    /**
     * Keeps a full copy of the step's map, rewrites another copy for the
     * animator, and sets a static fill first when there is a fill projector.
     */
    method DrawStep(stepAttrs: map<string, Projector<D>>)
      requires HasSymbolKeys(stepAttrs)
      modifies this`attrToProjector, this`paths, this`animated
      ensures attrToProjector == stepAttrs
      ensures animated == old(animated) + [SymbolAttributes(stepAttrs, show, parse)]
      ensures "fill" in stepAttrs ==> paths == FillPaths(old(paths), stepAttrs["fill"])
      ensures "fill" !in stepAttrs ==> paths == old(paths)
    {
      var attrs: map<string, Projector<D>> := stepAttrs;
      attrToProjector := stepAttrs;

      var xProjector := attrs["x"];
      var yProjector := attrs["y"];
      attrs := attrs - {"x"};
      attrs := attrs - {"y"};

      var rProjector := attrs["r"];
      attrs := attrs - {"r"};

      attrs := attrs["transform" := TransformProjector(xProjector, yProjector, rProjector, show, parse)];

      var symbolProjector := attrs["symbol"];
      attrs := attrs - {"symbol"};

      attrs := attrs["d" := symbolProjector];

      if "fill" in attrs {
        paths := FillPaths(paths, attrs["fill"]);
      }

      assert attrs == SymbolAttributes(stepAttrs, show, parse);
      animated := animated + [attrs];
    }

    /**
     * The point the symbol for `datum` is drawn at; after a draw step it is
     * the point the symbol's transform translates to.
     */
    function GetPixelPoint(datum: D, index: int): (p: Point)
      reads this`attrToProjector
      requires "x" in attrToProjector && "y" in attrToProjector
      ensures HasSymbolKeys(attrToProjector) ==>
        SymbolAttributes(attrToProjector, show, parse)["transform"](datum, index) ==
        Text(TransformText(p.x, p.y, attrToProjector["r"](datum, index), show, parse))
    {
      PixelPoint(attrToProjector, datum, index)
    }
  }
}
