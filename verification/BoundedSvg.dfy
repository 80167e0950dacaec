/**
 `validate_bounded_svg` over parsed elements: the report is `bounded` exactly when every
 element is in the supported subset and everything it can paint lies on the canvas.
 Numbers are idealised as reals; lexing of attribute text is part of the input.
 */
module BoundedSvg {
  import opened Common
  import opened PathBounds

  const SIDE := 512.0

  datatype Paint = NoPaint | Colour | UnsupportedPaint

  // The readings of one attribute's text that the validator asks for: as one number, as a
  // coordinate list, as path tokens, as a paint; None where the text does not lex.
  datatype Attribute = Attribute(number: Option<real>, numbers: Option<seq<real>>, tokens: Option<seq<Token>>,
                                 paint: Paint, blank: bool, mentionsTransform: bool)

  datatype Element = Foreign | Element(kind: string, isRoot: bool, attributes: map<string, Attribute>)

  const SUPPORTED: map<string, set<string>> := map[
    "svg" := {"width", "height", "viewBox", "data-safe-area"},
    "title" := {},
    "rect" := {"x", "y", "width", "height", "fill", "stroke"},
    "circle" := {"cx", "cy", "r", "fill", "stroke"},
    "ellipse" := {"cx", "cy", "rx", "ry", "fill", "stroke"},
    "line" := {"x1", "y1", "x2", "y2", "stroke"},
    "polyline" := {"points", "fill", "stroke"},
    "polygon" := {"points", "fill", "stroke"},
    "path" := {"d", "fill", "stroke"}]

  // --- Geometry ------------------------------------------------------------------------

  predicate Inside(v: real) {
    0.0 <= v <= SIDE
  }

  predicate OnCanvas(p: Point) {
    Inside(p.x) && Inside(p.y)
  }

  function Combine(points: seq<Point>, weights: seq<real>): Point
    requires |points| == |weights|
  {
    if points == [] then Point(0.0, 0.0)
    else
      var rest := Combine(points[1..], weights[1..]);
      Point(weights[0] * points[0].x + rest.x, weights[0] * points[0].y + rest.y)
  }

  function Total(weights: seq<real>): real {
    if weights == [] then 0.0 else weights[0] + Total(weights[1..])
  }

  ghost predicate ConvexWeights(weights: seq<real>, n: nat) {
    |weights| == n && Total(weights) == 1.0 && forall i :: 0 <= i < n ==> weights[i] >= 0.0
  }

  function Square(a: real): real {
    a * a
  }

  // Lines, polylines, polygons and paths, stroked or filled, paint convex combinations of
  // their vertices only.
  ghost predicate InHull(points: seq<Point>, p: Point) {
    exists weights :: ConvexWeights(weights, |points|) && p == Combine(points, weights)
  }

  predicate InEllipse(cx: real, cy: real, rx: real, ry: real, p: Point) {
    var dx, dy := p.x - cx, p.y - cy;
    if rx > 0.0 && ry > 0.0 then Square(dx / rx) + Square(dy / ry) <= 1.0
    else -rx <= dx <= rx && -ry <= dy <= ry
  }

  // Multiplication by name, so that proofs can hide its nonlinearity.
  function Times(a: real, b: real): real {
    a * b
  }

  // One coordinate of a combination, as a weighted sum.
  function Weighted(xs: seq<real>, weights: seq<real>): real
    requires |xs| == |weights|
  {
    if xs == [] then 0.0 else Times(weights[0], xs[0]) + Weighted(xs[1..], weights[1..])
  }

  lemma {:induction false} CombineIsWeighted(points: seq<Point>, weights: seq<real>)
    requires |points| == |weights|
    ensures Combine(points, weights) == Point(Weighted(Xs(points), weights), Weighted(Ys(points), weights))
  {
    if points == [] {
    } else {
      CombineIsWeighted(points[1..], weights[1..]);
      assert Xs(points)[1..] == Xs(points[1..]) && Ys(points)[1..] == Ys(points[1..]);
    }
  }

  lemma Between(w: real, lo: real, v: real, hi: real)
    requires w >= 0.0 && lo <= v <= hi
    ensures Times(w, lo) <= Times(w, v) <= Times(w, hi)
  {
    assert w * (v - lo) >= 0.0 && w * (hi - v) >= 0.0;
  }

  lemma Distribute(a: real, b: real, c: real)
    ensures Times(a + b, c) == Times(a, c) + Times(b, c)
  {
  }

  lemma {:induction false} WeightedBounds(xs: seq<real>, weights: seq<real>, lo: real, hi: real)
    requires |xs| == |weights| && forall i :: 0 <= i < |weights| ==> weights[i] >= 0.0
    requires forall i :: 0 <= i < |xs| ==> lo <= xs[i] <= hi
    ensures Times(Total(weights), lo) <= Weighted(xs, weights) <= Times(Total(weights), hi)
  {
    if xs == [] {
    } else {
      hide Times;
      WeightedBounds(xs[1..], weights[1..], lo, hi);
      Between(weights[0], lo, xs[0], hi);
      Distribute(weights[0], Total(weights[1..]), lo);
      Distribute(weights[0], Total(weights[1..]), hi);
    }
  }

  // Every vertex of a hull is one of its points.
  lemma VertexInHull(points: seq<Point>, k: nat)
    requires k < |points|
    ensures InHull(points, points[k])
  {
    var weights := seq(|points|, i => if i == k then 1.0 else 0.0);
    UnitCombine(points, weights, k);
  }

  lemma {:induction false} UnitCombine(points: seq<Point>, weights: seq<real>, k: int)
    requires |points| == |weights| && k < |points|
    requires forall i :: 0 <= i < |weights| ==> weights[i] == if i == k then 1.0 else 0.0
    ensures Total(weights) == if k < 0 then 0.0 else 1.0
    ensures Combine(points, weights) == if k < 0 then Point(0.0, 0.0) else points[k]
  {
    if points == [] {
    } else {
      UnitCombine(points[1..], weights[1..], k - 1);
    }
  }

  lemma SquareBound(q: real, r: real, d: real)
    requires r > 0.0 && Square(q) <= 1.0 && d == Times(r, q)
    ensures -r <= d <= r
  {
    assert q <= 1.0 by {
      if q > 1.0 { Between(q, 1.0, q, q); }
    }
    assert q >= -1.0 by {
      if q < -1.0 { Between(-q, 1.0, -q, -q); }
    }
    Between(r, -1.0, q, 1.0);
  }

  lemma Quotient(d: real, r: real)
    requires r > 0.0
    ensures d == Times(r, d / r) && Square(d / r) >= 0.0
    ensures d == r ==> Square(d / r) == 1.0
    ensures d == -r ==> Square(d / r) == 1.0
    ensures d == 0.0 ==> Square(d / r) == 0.0
  {
    var q := d / r;
    assert q * r == d && q * q >= 0.0;
    assert d == r ==> q == 1.0;
    assert d == -r ==> q == -1.0;
    assert d == 0.0 ==> q == 0.0;
  }

  lemma EllipseWithin(cx: real, cy: real, rx: real, ry: real, p: Point)
    requires rx >= 0.0 && ry >= 0.0 && InEllipse(cx, cy, rx, ry, p)
    ensures cx - rx <= p.x <= cx + rx && cy - ry <= p.y <= cy + ry
  {
    if rx > 0.0 && ry > 0.0 {
      hide Times, Square;
      Quotient(p.x - cx, rx);
      Quotient(p.y - cy, ry);
      SquareBound((p.x - cx) / rx, rx, p.x - cx);
      SquareBound((p.y - cy) / ry, ry, p.y - cy);
    }
  }

  // The four extreme points belong to the ellipse.
  lemma EllipseReaches(cx: real, cy: real, rx: real, ry: real, east: real, south: real)
    requires rx >= 0.0 && ry >= 0.0
    requires (east == rx || east == -rx) && (south == ry || south == -ry)
    ensures InEllipse(cx, cy, rx, ry, Point(cx + east, cy)) && InEllipse(cx, cy, rx, ry, Point(cx, cy + south))
  {
    if rx > 0.0 && ry > 0.0 {
      hide Times, Square;
      Quotient(east, rx);
      Quotient(0.0, ry);
      Quotient(0.0, rx);
      Quotient(south, ry);
      assert cx + east - cx == east && cy + south - cy == south && cx - cx == 0.0 && cy - cy == 0.0;
    }
  }

  // The box test on centre and radii is exact.
  lemma EllipseOnCanvas(cx: real, cy: real, rx: real, ry: real)
    requires rx >= 0.0 && ry >= 0.0
    ensures (forall p :: InEllipse(cx, cy, rx, ry, p) ==> OnCanvas(p))
            <==> Inside(cx - rx) && Inside(cx + rx) && Inside(cy - ry) && Inside(cy + ry)
  {
    forall p | InEllipse(cx, cy, rx, ry, p) ensures cx - rx <= p.x <= cx + rx && cy - ry <= p.y <= cy + ry {
      EllipseWithin(cx, cy, rx, ry, p);
    }
    EllipseReaches(cx, cy, rx, ry, rx, ry);
    EllipseReaches(cx, cy, rx, ry, -rx, -ry);
    hide InEllipse;
  }

  // --- Reading the attributes ---------------------------------------------------------

  function Number(e: Element, key: string): Option<real>
    requires e.Element?
  {
    if key in e.attributes then e.attributes[key].number else None
  }

  function Pairs(numbers: seq<real>): seq<Point>
    requires |numbers| % 2 == 0
  {
    seq(|numbers| / 2, i requires 0 <= i < |numbers| / 2 => Point(numbers[2 * i], numbers[2 * i + 1]))
  }

  // The number an attribute reads as; zero where it is absent or does not read.
  function Value(e: Element, key: string): real
    requires e.Element?
  {
    if Number(e, key).Some? then Number(e, key).value else 0.0
  }

  predicate Reads(e: Element, keys: set<string>)
    requires e.Element?
  {
    forall key <- keys :: Number(e, key).Some?
  }

  predicate HasPoints(e: Element)
    requires e.Element?
  {
    "points" in e.attributes && e.attributes["points"].numbers.Some?
    && |e.attributes["points"].numbers.value| >= 4 && |e.attributes["points"].numbers.value| % 2 == 0
  }

  predicate HasPath(e: Element)
    requires e.Element?
  {
    "d" in e.attributes && !e.attributes["d"].blank && e.attributes["d"].tokens.Some?
    && ParsePath(e.attributes["d"].tokens.value).Some?
  }

  // The vertices a path draws.
  function PathVertices(e: Element): seq<Point>
    requires e.Element? && HasPath(e)
  {
    Vertices(ParsePath(e.attributes["d"].tokens.value).value)
  }

  // The geometry of the element reads, and its box is on the canvas.
  predicate Fits(e: Element)
    requires e.Element?
  {
    match e.kind
    case "rect" =>
      var x, y, w, h := Value(e, "x"), Value(e, "y"), Value(e, "width"), Value(e, "height");
      Reads(e, {"x", "y"} * e.attributes.Keys + {"width", "height"}) && w >= 0.0 && h >= 0.0
      && Inside(x) && Inside(y) && Inside(x + w) && Inside(y + h)
    case "circle" =>
      var cx, cy, r := Value(e, "cx"), Value(e, "cy"), Value(e, "r");
      Reads(e, {"cx", "cy", "r"}) && r >= 0.0
      && Inside(cx - r) && Inside(cx + r) && Inside(cy - r) && Inside(cy + r)
    case "ellipse" =>
      var cx, cy, rx, ry := Value(e, "cx"), Value(e, "cy"), Value(e, "rx"), Value(e, "ry");
      Reads(e, {"cx", "cy", "rx", "ry"}) && rx >= 0.0 && ry >= 0.0
      && Inside(cx - rx) && Inside(cx + rx) && Inside(cy - ry) && Inside(cy + ry)
    case "line" =>
      Reads(e, {"x1", "y1", "x2", "y2"})
      && Inside(Value(e, "x1")) && Inside(Value(e, "y1")) && Inside(Value(e, "x2")) && Inside(Value(e, "y2"))
    case "polyline" => HasPoints(e) && forall v <- e.attributes["points"].numbers.value :: Inside(v)
    case "polygon" => HasPoints(e) && forall v <- e.attributes["points"].numbers.value :: Inside(v)
    case "path" => HasPath(e) && forall p <- PathVertices(e) :: OnCanvas(p)
    case _ => true
  }

  // --- What an element paints ----------------------------------------------------------

  ghost predicate OnSegment(x1: real, y1: real, x2: real, y2: real, p: Point) {
    exists t :: 0.0 <= t <= 1.0 && p == Along(x1, y1, x2, y2, t)
  }

  function Along(x1: real, y1: real, x2: real, y2: real, t: real): Point {
    Point((1.0 - t) * x1 + t * x2, (1.0 - t) * y1 + t * y2)
  }

  // The points an element whose geometry reads can paint, by the meaning of its attributes.
  ghost predicate Paints(e: Element, p: Point)
    requires e.Element?
  {
    match e.kind
    case "rect" =>
      Value(e, "x") <= p.x <= Value(e, "x") + Value(e, "width")
      && Value(e, "y") <= p.y <= Value(e, "y") + Value(e, "height")
    case "circle" =>
      Value(e, "r") >= 0.0
      && Square(p.x - Value(e, "cx")) + Square(p.y - Value(e, "cy")) <= Square(Value(e, "r"))
    case "ellipse" => InEllipse(Value(e, "cx"), Value(e, "cy"), Value(e, "rx"), Value(e, "ry"), p)
    case "line" => OnSegment(Value(e, "x1"), Value(e, "y1"), Value(e, "x2"), Value(e, "y2"), p)
    case "polyline" => HasPoints(e) && InHull(Pairs(e.attributes["points"].numbers.value), p)
    case "polygon" => HasPoints(e) && InHull(Pairs(e.attributes["points"].numbers.value), p)
    case "path" => HasPath(e) && InHull(PathVertices(e), p)
    case _ => false
  }

  // The attributes say what to paint: all numbers read, and no length is negative.
  predicate Describes(e: Element)
    requires e.Element?
  {
    match e.kind
    case "rect" =>
      (("x" in e.attributes ==> Number(e, "x").Some?) && ("y" in e.attributes ==> Number(e, "y").Some?))
      && Number(e, "width").Some? && Number(e, "height").Some? && Value(e, "width") >= 0.0 && Value(e, "height") >= 0.0
    case "circle" => Reads(e, {"cx", "cy", "r"}) && Value(e, "r") >= 0.0
    case "ellipse" => Reads(e, {"cx", "cy", "rx", "ry"}) && Value(e, "rx") >= 0.0 && Value(e, "ry") >= 0.0
    case "line" => Reads(e, {"x1", "y1", "x2", "y2"})
    case "polyline" => HasPoints(e)
    case "polygon" => HasPoints(e)
    case "path" => HasPath(e)
    case _ => true
  }

  // A hull is on the canvas exactly when its points are.
  lemma HullOnCanvas(points: seq<Point>)
    ensures (forall p :: InHull(points, p) ==> OnCanvas(p)) <==> (forall q <- points :: OnCanvas(q))
  {
    if forall p :: InHull(points, p) ==> OnCanvas(p) {
      forall q | q in points ensures OnCanvas(q) {
        var k :| 0 <= k < |points| && points[k] == q;
        VertexInHull(points, k);
      }
    }
    if forall q <- points :: OnCanvas(q) {
      forall p | InHull(points, p) ensures OnCanvas(p) {
        CombinationOnCanvas(points, p);
      }
    }
  }

  lemma CombinationOnCanvas(points: seq<Point>, p: Point)
    requires InHull(points, p) && forall q <- points :: OnCanvas(q)
    ensures OnCanvas(p)
  {
    var weights :| ConvexWeights(weights, |points|) && p == Combine(points, weights);
    forall i | 0 <= i < |points| ensures 0.0 <= Xs(points)[i] <= SIDE && 0.0 <= Ys(points)[i] <= SIDE {
      assert points[i] in points;
    }
    CombineIsWeighted(points, weights);
    WeightedBounds(Xs(points), weights, 0.0, SIDE);
    WeightedBounds(Ys(points), weights, 0.0, SIDE);
  }

  lemma PairsInside(numbers: seq<real>)
    requires |numbers| % 2 == 0
    ensures (forall v <- numbers :: Inside(v)) <==> (forall q <- Pairs(numbers) :: OnCanvas(q))
  {
    var points := Pairs(numbers);
    if forall v <- numbers :: Inside(v) {
      forall q | q in points ensures OnCanvas(q) {
        var k :| 0 <= k < |points| && points[k] == q;
        assert numbers[2 * k] in numbers && numbers[2 * k + 1] in numbers;
      }
    }
    if forall q <- points :: OnCanvas(q) {
      forall v | v in numbers ensures Inside(v) {
        var k :| 0 <= k < |numbers| && numbers[k] == v;
        assert points[k / 2] == Point(numbers[2 * (k / 2)], numbers[2 * (k / 2) + 1]);
        assert points[k / 2] in points;
      }
    }
  }

  lemma SegmentEnds(x1: real, y1: real, x2: real, y2: real)
    ensures Along(x1, y1, x2, y2, 0.0) == Point(x1, y1) && Along(x1, y1, x2, y2, 1.0) == Point(x2, y2)
  {
  }

  lemma AlongInside(x1: real, y1: real, x2: real, y2: real, t: real)
    requires Inside(x1) && Inside(y1) && Inside(x2) && Inside(y2) && 0.0 <= t <= 1.0
    ensures OnCanvas(Along(x1, y1, x2, y2, t))
  {
    Interpolate(x1, x2, t);
    Interpolate(y1, y2, t);
  }

  lemma SegmentOnCanvas(x1: real, y1: real, x2: real, y2: real)
    ensures (forall p :: OnSegment(x1, y1, x2, y2, p) ==> OnCanvas(p))
            <==> Inside(x1) && Inside(y1) && Inside(x2) && Inside(y2)
  {
    hide Along;
    if forall p :: OnSegment(x1, y1, x2, y2, p) ==> OnCanvas(p) {
      SegmentEnds(x1, y1, x2, y2);
      assert OnSegment(x1, y1, x2, y2, Point(x1, y1)) && OnSegment(x1, y1, x2, y2, Point(x2, y2));
    }
    if Inside(x1) && Inside(y1) && Inside(x2) && Inside(y2) {
      forall p | OnSegment(x1, y1, x2, y2, p) ensures OnCanvas(p) {
        var t :| 0.0 <= t <= 1.0 && p == Along(x1, y1, x2, y2, t);
        AlongInside(x1, y1, x2, y2, t);
      }
    }
  }

  lemma SquareOrder(a: real, r: real)
    requires r >= 0.0 && Square(a) <= Square(r)
    ensures -r <= a <= r
  {
    if a > r {
      SquareGrows(r, a);
    }
    if a < -r {
      SquareGrows(r, -a);
      SquareFacts(a);
    }
  }

  lemma SquareGrows(r: real, a: real)
    requires 0.0 <= r < a
    ensures Square(r) < Square(a)
  {
    hide Times, Square;
    Between(r, r, r, a);
    StrictlyGrows(a, r, a);
    Commutes(a, r);
    SquareIsTimes(r);
    SquareIsTimes(a);
  }

  lemma StrictlyGrows(w: real, lo: real, hi: real)
    requires w > 0.0 && lo < hi
    ensures Times(w, lo) < Times(w, hi)
  {
    assert w * (hi - lo) > 0.0;
  }

  lemma Commutes(a: real, b: real)
    ensures Times(a, b) == Times(b, a)
  {
  }

  lemma SquareIsTimes(a: real)
    ensures Square(a) == Times(a, a)
  {
  }

  lemma SquareFacts(a: real)
    ensures Square(a) >= 0.0 && Square(-a) == Square(a) && Square(0.0) == 0.0
  {
  }

  predicate OnDisc(cx: real, cy: real, r: real, p: Point) {
    Square(p.x - cx) + Square(p.y - cy) <= Square(r)
  }

  lemma DiscOnCanvas(cx: real, cy: real, r: real)
    requires r >= 0.0
    ensures (forall p :: OnDisc(cx, cy, r, p) ==> OnCanvas(p))
            <==> Inside(cx - r) && Inside(cx + r) && Inside(cy - r) && Inside(cy + r)
  {
    SquareFacts(r);
    assert cx - r - cx == -r && cx + r - cx == r && cy - r - cy == -r && cy + r - cy == r && cx - cx == 0.0
           && cy - cy == 0.0;
    hide Square;
    if forall p :: OnDisc(cx, cy, r, p) ==> OnCanvas(p) {
      assert OnDisc(cx, cy, r, Point(cx - r, cy)) && OnDisc(cx, cy, r, Point(cx + r, cy));
      assert OnDisc(cx, cy, r, Point(cx, cy - r)) && OnDisc(cx, cy, r, Point(cx, cy + r));
    }
    forall p | OnDisc(cx, cy, r, p) ensures -r <= p.x - cx <= r && -r <= p.y - cy <= r {
      SquareFacts(p.x - cx);
      SquareFacts(p.y - cy);
      SquareOrder(p.x - cx, r);
      SquareOrder(p.y - cy, r);
    }
  }

  /**
   The box test is exact, kind by kind: an element fits exactly when its attributes say what
   to paint and every point they say to paint is on the canvas.
   */
  lemma FitsExactly(e: Element)
    requires e.Element?
    ensures Fits(e) <==> Describes(e) && forall p :: Paints(e, p) ==> OnCanvas(p)
  {
    match e.kind
    case "rect" => RectFits(e);
    case "circle" =>
      if Value(e, "r") >= 0.0 {
        DiscOnCanvas(Value(e, "cx"), Value(e, "cy"), Value(e, "r"));
        hide Square;
        assert forall p :: Paints(e, p) <==> OnDisc(Value(e, "cx"), Value(e, "cy"), Value(e, "r"), p);
      }
    case "ellipse" =>
      if Value(e, "rx") >= 0.0 && Value(e, "ry") >= 0.0 {
        EllipseOnCanvas(Value(e, "cx"), Value(e, "cy"), Value(e, "rx"), Value(e, "ry"));
        hide InEllipse;
      }
    case "line" => SegmentOnCanvas(Value(e, "x1"), Value(e, "y1"), Value(e, "x2"), Value(e, "y2"));
    case "polyline" => PointsFit(e);
    case "polygon" => PointsFit(e);
    case "path" =>
      if HasPath(e) {
        HullOnCanvas(PathVertices(e));
      }
    case _ =>
  }

  lemma RectFits(e: Element)
    requires e.Element? && e.kind == "rect"
    ensures Fits(e) <==> Describes(e) && forall p :: Paints(e, p) ==> OnCanvas(p)
  {
    var x, y, w, h := Value(e, "x"), Value(e, "y"), Value(e, "width"), Value(e, "height");
    if Describes(e) && forall p :: Paints(e, p) ==> OnCanvas(p) {
      assert Paints(e, Point(x, y)) && Paints(e, Point(x + w, y + h));
    }
  }

  lemma PointsFit(e: Element)
    requires e.Element? && (e.kind == "polyline" || e.kind == "polygon")
    ensures Fits(e) <==> Describes(e) && forall p :: Paints(e, p) ==> OnCanvas(p)
  {
    if HasPoints(e) {
      PairsInside(e.attributes["points"].numbers.value);
      HullOnCanvas(Pairs(e.attributes["points"].numbers.value));
    }
  }

  predicate PlainAttributes(e: Element)
    requires e.Element? && e.kind in SUPPORTED
  {
    && e.attributes.Keys <= SUPPORTED[e.kind]
    && (forall key :: key in e.attributes ==> !e.attributes[key].mentionsTransform)
    && ("fill" in e.attributes ==> !e.attributes["fill"].paint.UnsupportedPaint?)
    && ("stroke" in e.attributes ==> e.attributes["stroke"].paint.NoPaint?)
  }

  // An element the report does not complain about.
  ghost predicate Admissible(e: Element) {
    && e.Element? && e.kind in SUPPORTED && (e.kind == "svg" ==> e.isRoot)
    && PlainAttributes(e)
    && Describes(e) && forall p :: Paints(e, p) ==> OnCanvas(p)
  }

  lemma AdmissiblePaints(e: Element)
    requires Admissible(e)
    ensures e.Element? && forall p :: Paints(e, p) ==> OnCanvas(p)
  {
    hide Describes, Paints, PlainAttributes;
  }

  // What the subset admits besides geometry: these elements with these attributes, no transform,
  // no stroke and no paint it cannot read.
  lemma AdmissibleMeans(e: Element)
    requires Admissible(e)
    ensures e.Element? && (e.kind == "svg" ==> e.isRoot)
    ensures match e.kind
            case "svg" => e.attributes.Keys <= {"width", "height", "viewBox", "data-safe-area"}
            case "title" => e.attributes.Keys == {}
            case "rect" => e.attributes.Keys <= {"x", "y", "width", "height", "fill", "stroke"}
            case "circle" => e.attributes.Keys <= {"cx", "cy", "r", "fill", "stroke"}
            case "ellipse" => e.attributes.Keys <= {"cx", "cy", "rx", "ry", "fill", "stroke"}
            case "line" => e.attributes.Keys <= {"x1", "y1", "x2", "y2", "stroke"}
            case "polyline" => e.attributes.Keys <= {"points", "fill", "stroke"}
            case "polygon" => e.attributes.Keys <= {"points", "fill", "stroke"}
            case "path" => e.attributes.Keys <= {"d", "fill", "stroke"}
            case _ => false
    ensures forall key <- e.attributes.Keys ::
              && !e.attributes[key].mentionsTransform
              && (key == "stroke" ==> e.attributes[key].paint == NoPaint)
              && (key == "fill" ==> e.attributes[key].paint == NoPaint || e.attributes[key].paint == Colour)
  {
    hide Describes, Paints;
  }

  // --- The validator --------------------------------------------------------------------

  predicate Outside(b: Box) {
    b.xMin < 0.0 || b.yMin < 0.0 || b.xMax > SIDE || b.yMax > SIDE
  }

  // The attributes of the geometry read, whether or not the box is on the canvas.
  predicate Legible(e: Element)
    requires e.Element?
  {
    match e.kind
    case "rect" => Reads(e, {"x", "y"} * e.attributes.Keys + {"width", "height"})
    case "circle" => Reads(e, {"cx", "cy", "r"})
    case "ellipse" => Reads(e, {"cx", "cy", "rx", "ry"})
    case "line" => Reads(e, {"x1", "y1", "x2", "y2"})
    case "path" => HasPath(e)
    case _ => HasPoints(e)
  }

  // Why a geometry is rejected.
  function Complaint(e: Element): string
    requires e.Element?
  {
    if Legible(e) then e.kind + "_overflow"
    else if e.kind == "path" && "d" in e.attributes && !e.attributes["d"].blank then
      "unsupported_or_invalid_path_geometry"
    else "invalid_" + e.kind + "_bounds"
  }

  method CheckGeometry(e: Element) returns (reason: Option<string>)
    requires e.Element? && e.kind in SUPPORTED
    ensures reason.None? <==> Fits(e)
    ensures reason.None? <==> Describes(e) && forall p :: Paints(e, p) ==> OnCanvas(p)
    ensures reason.Some? ==> reason.value == Complaint(e)
    ensures reason.None? && e.kind in ["polyline", "polygon"] ==>
              && "points" in e.attributes && e.attributes["points"].numbers.Some?
              && 4 <= |e.attributes["points"].numbers.value| && |e.attributes["points"].numbers.value| % 2 == 0
    ensures reason.None? && e.kind == "path" ==>
              "d" in e.attributes && !e.attributes["d"].blank && e.attributes["d"].tokens.Some?
  {
    hide Describes, Paints, Complaint, PathVertices;
    FitsExactly(e);
    if e.kind in ["rect", "line"] {
      reason := CheckBox(e);
    } else if e.kind in ["circle", "ellipse"] {
      reason := CheckRound(e);
    } else if e.kind in ["polyline", "polygon", "path"] {
      reason := CheckVertices(e);
    } else {
      reason := None;
    }
  }

  lemma ReasonNames()
    ensures "invalid_" + "rect" + "_bounds" == "invalid_rect_bounds" && "rect" + "_overflow" == "rect_overflow"
    ensures "invalid_" + "circle" + "_bounds" == "invalid_circle_bounds" && "circle" + "_overflow" == "circle_overflow"
    ensures "invalid_" + "ellipse" + "_bounds" == "invalid_ellipse_bounds"
    ensures "ellipse" + "_overflow" == "ellipse_overflow"
    ensures "invalid_" + "line" + "_bounds" == "invalid_line_bounds" && "line" + "_overflow" == "line_overflow"
    ensures "invalid_" + "path" + "_bounds" == "invalid_path_bounds" && "path" + "_overflow" == "path_overflow"
  {
    assert "invalid_" + "rect" == "invalid_rect";
    assert "invalid_" + "circle" == "invalid_circle";
    assert "invalid_" + "ellipse" == "invalid_ellipse";
    assert "invalid_" + "line" == "invalid_line";
    assert "invalid_" + "path" == "invalid_path";
  }

  method CheckBox(e: Element) returns (reason: Option<string>)
    requires e.Element? && e.kind in ["rect", "line"]
    ensures reason == if Fits(e) then None else Some(Complaint(e))
  {
    ReasonNames();
    if e.kind == "rect" {
      var x := if "x" in e.attributes then Number(e, "x") else Some(0.0);
      var y := if "y" in e.attributes then Number(e, "y") else Some(0.0);
      var w, h := Number(e, "width"), Number(e, "height");
      if x.None? || y.None? || w.None? || h.None? { return Some("invalid_rect_bounds"); }
      if w.value < 0.0 || h.value < 0.0 || Outside(Box(x.value, y.value, x.value + w.value, y.value + h.value)) {
        return Some("rect_overflow");
      }
    } else if e.kind == "line" {
      var x1, y1, x2, y2 := Number(e, "x1"), Number(e, "y1"), Number(e, "x2"), Number(e, "y2");
      if x1.None? || y1.None? || x2.None? || y2.None? { return Some("invalid_line_bounds"); }
      if Outside(Box(Lower(x1.value, x2.value), Lower(y1.value, y2.value), Upper(x1.value, x2.value),
                     Upper(y1.value, y2.value))) {
        return Some("line_overflow");
      }
    }
    return None;
  }

  method CheckRound(e: Element) returns (reason: Option<string>)
    requires e.Element? && e.kind in ["circle", "ellipse"]
    ensures reason == if Fits(e) then None else Some(Complaint(e))
  {
    ReasonNames();
    if e.kind == "circle" {
      var cx, cy, r := Number(e, "cx"), Number(e, "cy"), Number(e, "r");
      if cx.None? || cy.None? || r.None? { return Some("invalid_circle_bounds"); }
      if r.value < 0.0 || Outside(Box(cx.value - r.value, cy.value - r.value, cx.value + r.value, cy.value + r.value)) {
        return Some("circle_overflow");
      }
    } else if e.kind == "ellipse" {
      var cx, cy, rx, ry := Number(e, "cx"), Number(e, "cy"), Number(e, "rx"), Number(e, "ry");
      if cx.None? || cy.None? || rx.None? || ry.None? { return Some("invalid_ellipse_bounds"); }
      if rx.value < 0.0 || ry.value < 0.0
         || Outside(Box(cx.value - rx.value, cy.value - ry.value, cx.value + rx.value, cy.value + ry.value)) {
        return Some("ellipse_overflow");
      }
    }
    return None;
  }

  method CheckVertices(e: Element) returns (reason: Option<string>)
    requires e.Element? && e.kind in ["polyline", "polygon", "path"]
    ensures reason == if Fits(e) then None else Some(Complaint(e))
  {
    hide DrawAll, ParsePath, IsBoundingBox;
    ReasonNames();
    if e.kind == "polyline" || e.kind == "polygon" {
      if !HasPoints(e) { return Some("invalid_" + e.kind + "_bounds"); }
      var numbers := e.attributes["points"].numbers.value;
      var box := BoxOf(Pairs(numbers));
      PairsInside(numbers);
      BoxInside(box, Pairs(numbers));
      if Outside(box) { return Some(e.kind + "_overflow"); }
    } else if e.kind == "path" {
      if "d" !in e.attributes || e.attributes["d"].blank { return Some("invalid_path_bounds"); }
      if e.attributes["d"].tokens.None? { return Some("unsupported_or_invalid_path_geometry"); }
      var bounds := Bounds(e.attributes["d"].tokens.value);
      if bounds.None? { return Some("unsupported_or_invalid_path_geometry"); }
      BoxInside(bounds.value, PathVertices(e));
      if Outside(bounds.value) { return Some("path_overflow"); }
    }
    return None;
  }

  function Lower(a: real, b: real): real {
    if b < a then b else a
  }

  function Upper(a: real, b: real): real {
    if b > a then b else a
  }

  lemma BoxInside(b: Box, points: seq<Point>)
    requires IsBoundingBox(b, points)
    ensures !Outside(b) <==> forall q <- points :: OnCanvas(q)
  {
    assert forall i :: 0 <= i < |points| ==> Xs(points)[i] == points[i].x && Ys(points)[i] == points[i].y;
    if forall q <- points :: OnCanvas(q) {
      assert forall i :: 0 <= i < |points| ==> OnCanvas(points[i]);
    }
    if !Outside(b) {
      forall q | q in points ensures OnCanvas(q) {
        var k :| 0 <= k < |points| && points[k] == q;
        assert Xs(points)[k] == q.x && Ys(points)[k] == q.y;
      }
    }
  }

  // Why an element is rejected: what it is, then its attributes, then its paint, then its geometry.
  // Only unreadable paints are all reported.
  function Complaints(e: Element): seq<string> {
    if e.Foreign? then ["unsupported_foreign_namespace_element"]
    else if e.kind == "svg" && !e.isRoot then ["unsupported_nested_svg_viewport"]
    else if e.kind !in SUPPORTED then ["unsupported_" + e.kind + "_geometry"]
    else if exists key :: key in e.attributes && key !in SUPPORTED[e.kind] then
      ["unsupported_" + e.kind + "_attribute"]
    else if exists key :: key in e.attributes && e.attributes[key].mentionsTransform then
      ["unsupported_" + e.kind + "_style_or_transform"]
    else if Unreadable(e, "fill") || Unreadable(e, "stroke") then
      (if Unreadable(e, "fill") then ["unsupported_" + e.kind + "_fill_paint"] else [])
      + (if Unreadable(e, "stroke") then ["unsupported_" + e.kind + "_stroke_paint"] else [])
    else if "stroke" in e.attributes && e.attributes["stroke"].paint == Colour then
      ["unsupported_" + e.kind + "_stroke_bounds"]
    else if Fits(e) then [] else [Complaint(e)]
  }

  predicate Unreadable(e: Element, key: string)
    requires e.Element?
  {
    key in e.attributes && e.attributes[key].paint == UnsupportedPaint
  }

  function AllComplaints(elements: seq<Element>): seq<string> {
    if elements == [] then [] else AllComplaints(elements[..|elements| - 1]) + Complaints(elements[|elements| - 1])
  }

  method CheckElement(e: Element) returns (reasons: seq<string>)
    ensures reasons == [] <==> Admissible(e)
    ensures reasons == Complaints(e)
  {
    hide Describes, Paints, Fits, Complaint;
    if e.Foreign? { return ["unsupported_foreign_namespace_element"]; }
    if e.kind == "svg" && !e.isRoot { return ["unsupported_nested_svg_viewport"]; }
    if e.kind !in SUPPORTED { return ["unsupported_" + e.kind + "_geometry"]; }
    if !(e.attributes.Keys <= SUPPORTED[e.kind]) { return ["unsupported_" + e.kind + "_attribute"]; }
    if exists key :: key in e.attributes && e.attributes[key].mentionsTransform {
      return ["unsupported_" + e.kind + "_style_or_transform"];
    }
    reasons := [];
    if "fill" in e.attributes && e.attributes["fill"].paint.UnsupportedPaint? {
      reasons := reasons + ["unsupported_" + e.kind + "_fill_paint"];
    }
    if "stroke" in e.attributes && e.attributes["stroke"].paint.UnsupportedPaint? {
      reasons := reasons + ["unsupported_" + e.kind + "_stroke_paint"];
    }
    if reasons != [] { return; }
    if "stroke" in e.attributes && e.attributes["stroke"].paint.Colour? {
      return ["unsupported_" + e.kind + "_stroke_bounds"];
    }
    var geometry := CheckGeometry(e);
    reasons := if geometry.Some? then [geometry.value] else [];
  }

  datatype Report = Report(bounded: bool, overflow: bool, reasons: seq<string>)

  // `canvas` holds the root's width, height and viewBox as numbers; None when any of them
  // is missing or does not parse, which the source raises on.
  method ValidateBoundedSvg(canvas: Option<(real, real, seq<real>)>, elements: seq<Element>)
    returns (r: Option<Report>)
    ensures r.None? <==> canvas.None?
    ensures r.Some? ==>
              (r.value.bounded <==> canvas.value == (SIDE, SIDE, [0.0, 0.0, SIDE, SIDE])
                                    && forall i :: 0 <= i < |elements| ==> Admissible(elements[i]))
    ensures r.Some? && r.value.bounded ==>
              canvas.value.0 == canvas.value.1 == 512.0
              && forall i, p :: 0 <= i < |elements| && Paints(elements[i], p) ==>
                                  0.0 <= p.x <= 512.0 && 0.0 <= p.y <= 512.0
    ensures r.Some? ==> r.value.overflow == !r.value.bounded && (r.value.bounded <==> r.value.reasons == [])
    ensures r.Some? ==> r.value.reasons == (if canvas.value == (512.0, 512.0, [0.0, 0.0, 512.0, 512.0]) then []
                                            else ["canvas_or_viewbox_mismatch"]) + AllComplaints(elements)
  {
    hide Admissible, Complaints;
    if canvas.None? {
      return None;
    }
    var reasons: seq<string> := [];
    if canvas.value.0 != SIDE || canvas.value.1 != SIDE || canvas.value.2 != [0.0, 0.0, SIDE, SIDE] {
      reasons := ["canvas_or_viewbox_mismatch"];
    }
    ghost var matches := canvas.value == (SIDE, SIDE, [0.0, 0.0, SIDE, SIDE]);
    for i := 0 to |elements|
      invariant reasons == [] <==> matches && forall j :: 0 <= j < i ==> Admissible(elements[j])
      invariant reasons == (if matches then [] else ["canvas_or_viewbox_mismatch"]) + AllComplaints(elements[..i])
    {
      var found := CheckElement(elements[i]);
      assert elements[..i + 1][..i] == elements[..i];
      reasons := reasons + found;
    }
    assert elements[..|elements|] == elements;
    forall i | reasons == [] && 0 <= i < |elements|
      ensures elements[i].Element? && forall p :: Paints(elements[i], p) ==> OnCanvas(p)
    {
      AdmissiblePaints(elements[i]);
    }
    return Some(Report(reasons == [], reasons != [], reasons));
  }

  // --- Strokes of a path --------------------------------------------------------------

  // p lies on the straight line that the k-th segment draws (a moveto draws nothing).
  ghost predicate OnStroke(segments: seq<Segment>, k: nat, t: real, p: Point)
    requires k < |segments|
  {
    var from, to := DrawAll(segments[..k]).current, DrawAll(segments[..k + 1]).current;
    && !segments[k].MoveTo? && k > 0 && 0.0 <= t <= 1.0
    && p == Point((1.0 - t) * from.x + t * to.x, (1.0 - t) * from.y + t * to.y)
  }

  // After at least one segment the pen stands on a vertex of the whole path.
  lemma {:induction false} PenOnVertex(segments: seq<Segment>, k: nat)
    requires 0 < k <= |segments|
    ensures DrawAll(segments[..k]).current in Vertices(segments)
    decreases |segments|
  {
    var last := |segments| - 1;
    if k == |segments| {
      assert segments[..k] == segments;
      var pen := Draw(DrawAll(segments[..last]), segments[last]);
      assert pen.vertices[|pen.vertices| - 1] == pen.current;
    } else {
      assert segments[..last][..k] == segments[..k];
      PenOnVertex(segments[..last], k);
    }
  }

  // Every line a bounded path strokes, closing lines included, stays on the canvas.
  lemma StrokesOnCanvas(segments: seq<Segment>, k: nat, t: real, p: Point)
    requires forall q :: InHull(Vertices(segments), q) ==> OnCanvas(q)
    requires k < |segments| && OnStroke(segments, k, t, p)
    ensures OnCanvas(p)
  {
    hide DrawAll, Draw, InHull, Times;
    var vertices := Vertices(segments);
    PenOnVertex(segments, k);
    PenOnVertex(segments, k + 1);
    var from, to := DrawAll(segments[..k]).current, DrawAll(segments[..k + 1]).current;
    var i :| 0 <= i < |vertices| && vertices[i] == from;
    var j :| 0 <= j < |vertices| && vertices[j] == to;
    VertexInHull(vertices, i);
    VertexInHull(vertices, j);
    Interpolate(from.x, to.x, t);
    Interpolate(from.y, to.y, t);
  }

  lemma Interpolate(x: real, y: real, t: real)
    requires 0.0 <= x <= SIDE && 0.0 <= y <= SIDE && 0.0 <= t <= 1.0
    ensures 0.0 <= (1.0 - t) * x + t * y <= SIDE
  {
    Between(1.0 - t, 0.0, x, SIDE);
    Between(t, 0.0, y, SIDE);
    Distribute(1.0 - t, t, SIDE);
  }
}
