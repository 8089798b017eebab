/**
 * The canvas: an ordered list of shapes that only grows, the random batch
 * generator that fills it, and the report it prints.
 *
 * The generator's duplicate test asks whether the batch already holds the
 * candidate OBJECT. Shapes do not define their own equality, so this is
 * identity, and every candidate is a shape constructed a moment before.
 * Identity is modelled by the identifier: the factory gives every shape its
 * own (the invariant `ShapeFactory.Valid`, from which `CreatedIdsIncrease`
 * follows), so two shapes are the same object exactly when their identifiers
 * agree.
 */
module Canvases {
  import opened Format
  import opened Shapes

  /**
   * The random number source, as an oracle: `NextInt(bound)` yields some value
   * in [0, bound). `history` records every value handed out, in order.
   */
  class Random {
    ghost var history: seq<nat>

    constructor ()
      ensures history == []
    {
      history := [];
    }

    method NextInt(bound: nat) returns (r: nat)
      requires bound > 0
      modifies this
      ensures r < bound
      ensures history == old(history) + [r]
    {
      r :| r < bound;
      history := history + [r];
    }
  }

  /** The shape types the generator chooses among, in the order it indexes them. */
  datatype ShapeType = CircleType | OvalType | SquareType | RectangleType

  const ShapeTypes: seq<ShapeType> := [CircleType, OvalType, SquareType, RectangleType]

  function TypeOf(s: Shape): ShapeType {
    match s
    case Oval(_, _, _) => OvalType
    case Circle(_, _) => CircleType
    case Rectangle(_, _, _) => RectangleType
    case Square(_, _) => SquareType
  }

  /** How many draws of `NextInt(100)` the generator makes for a shape of type `t`. */
  function Arity(t: ShapeType): nat {
    match t
    case CircleType => 1
    case SquareType => 1
    case OvalType => 2
    case RectangleType => 2
  }

  /** `dims` are the dimension draws for a shape of type `t`: the right number, each below 100. */
  predicate Fits(t: ShapeType, dims: seq<nat>) {
    |dims| == Arity(t) && forall k :: 0 <= k < |dims| ==> dims[k] < 100
  }

  /** The shape the generator builds from its draws: every dimension is a draw plus one. */
  function Make(t: ShapeType, dims: seq<nat>, id: nat): (s: Shape)
    requires Fits(t, dims)
    ensures s.id == id && TypeOf(s) == t
    ensures forall k :: 0 <= k < |Dimensions(s)| ==> 1 <= Dimensions(s)[k] <= 100
  {
    match t
    case CircleType => Circle(id, dims[0] + 1)
    case OvalType => Oval(id, dims[0] + 1, dims[1] + 1)
    case SquareType => Square(id, dims[0] + 1)
    case RectangleType => Rectangle(id, dims[0] + 1, dims[1] + 1)
  }

  /** The draws of one pass of the generation loop: the type index, then the dimensions. */
  datatype Draw = Draw(typeIndex: nat, dims: seq<nat>)

  predicate ValidDraw(d: Draw) {
    d.typeIndex < |ShapeTypes| && Fits(ShapeTypes[d.typeIndex], d.dims)
  }

  predicate ValidDraws(ds: seq<Draw>) {
    forall k :: 0 <= k < |ds| ==> ValidDraw(ds[k])
  }

  /** The values the random source hands out over the passes `ds`, in order. */
  function Flatten(ds: seq<Draw>): seq<nat> {
    if ds == [] then [] else Flatten(ds[..|ds| - 1]) + [ds[|ds| - 1].typeIndex] + ds[|ds| - 1].dims
  }

  /** The shapes built over the passes `ds`, the first carrying identifier `firstId`. */
  function Batch(ds: seq<Draw>, firstId: nat): (b: seq<Shape>)
    requires ValidDraws(ds)
    ensures |b| == |ds|
  {
    if ds == [] then []
    else
      var last := ds[|ds| - 1];
      Batch(ds[..|ds| - 1], firstId) + [Make(ShapeTypes[last.typeIndex], last.dims, firstId + |ds| - 1)]
  }

  /** Pass `k` builds a shape of the type drawn, from the dimensions drawn, with identifier `firstId + k`. */
  lemma {:induction false} BatchAt(ds: seq<Draw>, firstId: nat, k: nat)
    requires ValidDraws(ds) && k < |ds|
    ensures Batch(ds, firstId)[k] == Make(ShapeTypes[ds[k].typeIndex], ds[k].dims, firstId + k)
  {
    if k < |ds| - 1 {
      var front := ds[..|ds| - 1];
      assert ValidDraws(front) by {
        forall j | 0 <= j < |front| ensures ValidDraw(front[j]) {
          assert front[j] == ds[j];
        }
      }
      BatchAt(front, firstId, k);
      assert front[k] == ds[k];
    }
  }

  /**
   * Every shape of a batch has the type drawn for it, consecutive identifiers
   * from `firstId`, and every dimension in [1, 100].
   */
  lemma BatchShapes(ds: seq<Draw>, firstId: nat)
    requires ValidDraws(ds)
    ensures forall k :: 0 <= k < |ds| ==> Batch(ds, firstId)[k].id == firstId + k
    ensures forall k :: 0 <= k < |ds| ==> TypeOf(Batch(ds, firstId)[k]) == ShapeTypes[ds[k].typeIndex]
    ensures forall k, j :: 0 <= k < |ds| && 0 <= j < 2 ==> 1 <= Dimensions(Batch(ds, firstId)[k])[j] <= 100
  {
    forall k | 0 <= k < |ds|
      ensures Batch(ds, firstId)[k] == Make(ShapeTypes[ds[k].typeIndex], ds[k].dims, firstId + k)
    {
      BatchAt(ds, firstId, k);
    }
  }

  /** Equality as the duplicate test's comment means it: the same kind and the same dimensions. */
  predicate SameKindAndDimensions(a: Shape, b: Shape) {
    TypeOf(a) == TypeOf(b) && Dimensions(a) == Dimensions(b)
  }

  /**
   * Two passes that draw the same values build two shapes of the same kind and
   * dimensions that are still different objects: nothing in the generator
   * keeps such a pair out of a batch.
   */
  lemma RepeatedDrawsRepeatShapes(ds: seq<Draw>, firstId: nat, i: nat, j: nat)
    requires ValidDraws(ds) && i < j < |ds| && ds[i] == ds[j]
    ensures SameKindAndDimensions(Batch(ds, firstId)[i], Batch(ds, firstId)[j])
    ensures Batch(ds, firstId)[i].id != Batch(ds, firstId)[j].id
  {
    BatchAt(ds, firstId, i);
    BatchAt(ds, firstId, j);
  }

  /** Ten passes that all draw a circle of radius 1: a valid run whose batch repeats one shape ten times over. */
  lemma TenEqualCirclesCanBeDrawn(firstId: nat)
    ensures var ds := seq(10, _ => Draw(0, [0]));
            ValidDraws(ds) &&
            forall k :: 0 <= k < 10 ==> Batch(ds, firstId)[k] == Circle(firstId + k, 1)
  {
    var ds := seq(10, _ => Draw(0, [0]));
    forall k | 0 <= k < 10 ensures Batch(ds, firstId)[k] == Circle(firstId + k, 1) {
      BatchAt(ds, firstId, k);
    }
  }

  /**
   * Whether `xs` holds the object `s`, that is, a shape with the identifier of
   * `s`. Like reference equality it is reflexive: a list holding `s` contains it.
   */
  function ContainsObject(xs: seq<Shape>, s: Shape): (r: bool)
    ensures s in xs ==> r
  {
    exists k :: 0 <= k < |xs| && xs[k].id == s.id
  }

  /** A shape made after every shape of `xs` is never among them. */
  lemma FreshNotContained(xs: seq<Shape>, s: Shape)
    requires forall k :: 0 <= k < |xs| ==> xs[k].id < s.id
    ensures !ContainsObject(xs, s)
  {
  }

  const Header: string := "Canvas has the following random shapes:"

  /** The report line of one shape: its identifier, then its description. */
  function ReportLine(s: Shape): string {
    "Shape " + NatToString(s.id) + ": " + Info(s)
  }

  /** What a report line says: an identifier and the description after it. */
  datatype ReportEntry = ReportEntry(id: nat, info: string)

  /** Reads a report line back: `Shape `, digits up to the first ':', a space, the description. */
  function ParseReportLine(line: string): Option<ReportEntry> {
    if |line| < 6 || line[..6] != "Shape " then None
    else
      var rest := line[6..];
      var colon := FirstIndex(rest, ':');
      if colon + 1 >= |rest| || rest[colon + 1] != ' ' then None
      else
        var id := ParseNat(rest[..colon]);
        if id.Some? then Some(ReportEntry(id.value, rest[colon + 2..])) else None
  }

  lemma ParseLine(id: nat, info: string)
    ensures ParseReportLine("Shape " + NatToString(id) + ": " + info) == Some(ReportEntry(id, info))
  {
    var digits := NatToString(id);
    var line := "Shape " + digits + ": " + info;
    assert line[..6] == "Shape ";
    var rest := line[6..];
    assert rest == digits + [':'] + ([' '] + info);
    FirstIndexOfSeparator(digits, ':', [' '] + info);
    assert rest[..|digits|] == digits && rest[|digits| + 2..] == info;
    DigitsValueOfNatToString(id);
  }

  /** A report line loses nothing: it reads back as the shape's identifier and description. */
  lemma ReportLineReadsBack(s: Shape)
    ensures ParseReportLine(ReportLine(s)) == Some(ReportEntry(s.id, Info(s)))
  {
    ParseLine(s.id, Info(s));
  }

  /** The report of a list of shapes: the header, then one line per shape. */
  function Report(shapes: seq<Shape>): (lines: seq<string>)
    ensures |lines| == |shapes| + 1
  {
    if shapes == [] then [Header] else Report(shapes[..|shapes| - 1]) + [ReportLine(shapes[|shapes| - 1])]
  }

  /** The report opens with the header, and its line `k` describes shape `k - 1` of the list. */
  lemma {:induction false} ReportAt(shapes: seq<Shape>, k: nat)
    requires k <= |shapes|
    ensures Report(shapes)[k] == if k == 0 then Header else ReportLine(shapes[k - 1])
  {
    if shapes != [] && k < |shapes| {
      ReportAt(shapes[..|shapes| - 1], k);
      if k > 0 {
        assert shapes[..|shapes| - 1][k - 1] == shapes[k - 1];
      }
    }
  }

  lemma PrefixSnoc<T>(s: seq<T>, i: nat)
    requires i < |s|
    ensures s[..i + 1] == s[..i] + [s[i]]
  {
  }

  lemma ReportSnoc(shapes: seq<Shape>, s: Shape)
    ensures Report(shapes + [s]) == Report(shapes) + [ReportLine(s)]
  {
    assert (shapes + [s])[..|shapes|] == shapes;
  }

  /** The report of a circle of radius 2 made first and a square of side 3 made second. */
  lemma ReportExample()
    ensures Report([Circle(1, 2), Square(2, 3)])
         == [Header, "Shape 1: CIRCLE 2", "Shape 2: RECTANGLE 3x3"]
  {
    CircleLineExample();
    SquareLineExample();
    ReportSnoc([], Circle(1, 2));
    ReportSnoc([Circle(1, 2)], Square(2, 3));
  }

  lemma CircleLineExample()
    ensures ReportLine(Circle(1, 2)) == "Shape 1: CIRCLE 2"
  {
    assert Info(Circle(1, 2)) == "CIRCLE 2";
  }

  lemma SquareLineExample()
    ensures ReportLine(Square(2, 3)) == "Shape 2: RECTANGLE 3x3"
  {
    assert Info(Square(2, 3)) == "RECTANGLE 3x3";
  }

  class Canvas {
    var shapes: seq<Shape>

    constructor (shapes: seq<Shape>)
      ensures this.shapes == shapes
    {
      this.shapes := shapes;
    }

    method GetShapes() returns (r: seq<Shape>)
      ensures r == shapes
    {
      r := shapes;
    }

    method AddShape(shape: Shape)
      modifies this
      ensures shapes == old(shapes) + [shape]
    {
      shapes := shapes + [shape];
    }

    /**
     * Fills the batch with ten shapes and appends each to the canvas. `draws`
     * holds the random values of each pass of the loop, one entry per pass, so
     * `|draws| == 10` says that the loop ran exactly ten times: no candidate was
     * ever turned away.
     */
    method GenerateRandomShapes(rng: Random, factory: ShapeFactory) returns (ghost draws: seq<Draw>)
      requires factory.Valid()
      modifies this, rng, factory
      ensures factory.Valid()
      ensures |draws| == 10 && ValidDraws(draws)
      ensures rng.history == old(rng.history) + Flatten(draws)
      ensures factory.counter == old(factory.counter) + 10
      ensures shapes == old(shapes) + Batch(draws, old(factory.counter) + 1)
      ensures factory.created == old(factory.created) + Batch(draws, old(factory.counter) + 1)
    {
      ghost var firstId := factory.counter + 1;
      var added: seq<Shape> := [];
      draws := [];
      while |added| < 10
        invariant |added| <= 10 && |draws| == |added|
        invariant ValidDraws(draws) && added == Batch(draws, firstId)
        invariant forall k :: 0 <= k < |added| ==> added[k].id < firstId + |added|
        invariant shapes == old(shapes) + added
        invariant rng.history == old(rng.history) + Flatten(draws)
        invariant factory.Valid() && factory.counter == firstId - 1 + |added|
        invariant factory.created == old(factory.created) + added
        decreases 10 - |added|
      {
        var index := rng.NextInt(|ShapeTypes|);
        var newShape;
        ghost var dims;
        newShape, dims := GenerateRandomShape(rng, factory, ShapeTypes[index]);
        FreshNotContained(added, newShape);
        if !ContainsObject(added, newShape) {
          added := added + [newShape];
          AddShape(newShape);
        }
        ghost var pass := Draw(index, dims);
        assert (draws + [pass])[..|draws|] == draws;
        assert Flatten(draws + [pass]) == Flatten(draws) + [index] + dims;
        draws := draws + [pass];
      }
    }

    /** Builds one shape of type `shapeType`, every dimension drawn from [1, 100]. */
    method GenerateRandomShape(rng: Random, factory: ShapeFactory, shapeType: ShapeType)
      returns (shape: Shape, ghost dims: seq<nat>)
      requires factory.Valid()
      modifies rng, factory
      ensures factory.Valid() && factory.counter == old(factory.counter) + 1
      ensures factory.created == old(factory.created) + [shape]
      ensures Fits(shapeType, dims) && rng.history == old(rng.history) + dims
      ensures shape == Make(shapeType, dims, factory.counter)
    {
      match shapeType
      case CircleType =>
        var radius := rng.NextInt(100);
        shape := factory.NewCircle(radius + 1);
        dims := [radius];
      case OvalType =>
        var horizontal := rng.NextInt(100);
        var vertical := rng.NextInt(100);
        shape := factory.NewOval(horizontal + 1, vertical + 1);
        dims := [horizontal, vertical];
      case SquareType =>
        var side := rng.NextInt(100);
        shape := factory.NewSquare(side + 1);
        dims := [side];
      case RectangleType =>
        var length := rng.NextInt(100);
        var width := rng.NextInt(100);
        shape := factory.NewRectangle(length + 1, width + 1);
        dims := [length, width];
    }

    /** The lines the canvas prints, as `Report` lays them out. */
    method DisplayShapes() returns (lines: seq<string>)
      ensures lines == Report(shapes)
    {
      lines := [Header];
      for i := 0 to |shapes|
        invariant lines == Report(shapes[..i])
      {
        PrefixSnoc(shapes, i);
        ReportSnoc(shapes[..i], shapes[i]);
        lines := lines + [ReportLine(shapes[i])];
      }
      assert shapes[..|shapes|] == shapes;
    }
  }

  /**
   * The program run: with the shape counter at its start value, an empty
   * canvas is filled by one batch and its report is produced. The shapes
   * listed carry the identifiers 1 to 10 in order, every dimension lies in
   * [1, 100], and the report describes exactly those shapes.
   */
  method RunProgram() returns (shapes: seq<Shape>, lines: seq<string>)
    ensures |shapes| == 10 && lines == Report(shapes)
    ensures forall k :: 0 <= k < 10 ==> shapes[k].id == k + 1
    ensures forall k, j :: 0 <= k < 10 && 0 <= j < 2 ==> 1 <= Dimensions(shapes[k])[j] <= 100
  {
    var factory := new ShapeFactory();
    var rng := new Random();
    var canvas := new Canvas([]);
    ghost var draws := canvas.GenerateRandomShapes(rng, factory);
    BatchShapes(draws, 1);
    lines := canvas.DisplayShapes();
    shapes := canvas.GetShapes();
  }
}
