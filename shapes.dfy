/**
 * The shape hierarchy: ovals, circles, rectangles and squares, each with the
 * identifier it received at construction and its immutable dimensions.
 *
 * Circle is an oval whose two radii are the one radius it was built with;
 * Square is a rectangle whose length and width are its side. Square has no
 * description of its own and uses the rectangle's.
 */
module Shapes {
  import opened Format

  /** A constructed shape; `id` is the identifier its construction drew. */
  datatype Shape =
    | Oval(id: nat, horizontalRadius: int, verticalRadius: int)
    | Circle(id: nat, radius: int)
    | Rectangle(id: nat, length: int, width: int)
    | Square(id: nat, side: int)

  /** The shapes that are ovals: ovals proper and circles. */
  predicate IsOval(s: Shape) {
    s.Oval? || s.Circle?
  }

  /** The shapes that are rectangles: rectangles proper and squares. */
  predicate IsRectangle(s: Shape) {
    s.Rectangle? || s.Square?
  }

  function HorizontalRadius(s: Shape): int
    requires IsOval(s)
  {
    if s.Circle? then s.radius else s.horizontalRadius
  }

  function VerticalRadius(s: Shape): int
    requires IsOval(s)
  {
    if s.Circle? then s.radius else s.verticalRadius
  }

  function Length(s: Shape): int
    requires IsRectangle(s)
  {
    if s.Square? then s.side else s.length
  }

  function Width(s: Shape): int
    requires IsRectangle(s)
  {
    if s.Square? then s.side else s.width
  }

  /** The two dimensions the shape stores: its radii, or its length and width. */
  function Dimensions(s: Shape): seq<int> {
    if IsOval(s) then [HorizontalRadius(s), VerticalRadius(s)] else [Length(s), Width(s)]
  }

  /** The word a description opens with; a square has none of its own and uses the rectangle's. */
  function KindWord(s: Shape): string {
    if s.Oval? then "OVAL" else if s.Circle? then "CIRCLE" else "RECTANGLE"
  }

  /**
   * The numbers a description shows: both radii of an oval, the horizontal
   * radius of a circle, the length and width of a rectangle or a square.
   */
  function ShownNumbers(s: Shape): seq<int> {
    if s.Oval? then [HorizontalRadius(s), VerticalRadius(s)]
    else if s.Circle? then [HorizontalRadius(s)]
    else [Length(s), Width(s)]
  }

  /** The two format templates, `WORD %d` and `WORD %dx%d`. */
  function Render(word: string, numbers: seq<int>): string
    requires 1 <= |numbers| <= 2
  {
    word + " " + IntToString(numbers[0]) + (if |numbers| == 2 then "x" + IntToString(numbers[1]) else "")
  }

  /** `Render` spelt out as the format string concatenates it. */
  lemma RenderTemplate(word: string, numbers: seq<int>)
    requires 1 <= |numbers| <= 2
    ensures |numbers| == 1 ==> Render(word, numbers) == word + " " + IntToString(numbers[0])
    ensures |numbers| == 2 ==>
      Render(word, numbers) == word + " " + IntToString(numbers[0]) + "x" + IntToString(numbers[1])
  {
  }

  /**
   * The description of a shape: `OVAL hxv` with an oval's radii, `CIRCLE r`
   * with a circle's radius, and `RECTANGLE lxw` with the sides of a rectangle
   * or of a square.
   */
  function Info(s: Shape): (r: string)
    ensures s.Oval? ==> r == "OVAL " + IntToString(s.horizontalRadius) + "x" + IntToString(s.verticalRadius)
    ensures s.Circle? ==> r == "CIRCLE " + IntToString(s.radius)
    ensures s.Rectangle? ==> r == "RECTANGLE " + IntToString(s.length) + "x" + IntToString(s.width)
    ensures s.Square? ==> r == "RECTANGLE " + IntToString(s.side) + "x" + IntToString(s.side)
  {
    var word, numbers := KindWord(s), ShownNumbers(s);
    assert word + " " == if s.Oval? then "OVAL " else if s.Circle? then "CIRCLE " else "RECTANGLE ";
    RenderTemplate(word, numbers);
    Render(word, numbers)
  }

  /** What a description says: the kind word and the numbers after it. */
  datatype Description = Description(word: string, dims: seq<int>)

  /** Reads a description back: the word before the first space, then the numbers. */
  function ParseInfo(info: string): Option<Description> {
    var sp := FirstIndex(info, ' ');
    if sp == |info| then None else ParseNumbers(info[..sp], info[sp + 1..])
  }

  /** One integer, or two integers separated by the first 'x'. */
  function ParseNumbers(word: string, rest: string): Option<Description> {
    var x := FirstIndex(rest, 'x');
    if x == |rest| then
      var n := ParseInt(rest);
      if n.Some? then Some(Description(word, [n.value])) else None
    else
      var a, b := ParseInt(rest[..x]), ParseInt(rest[x + 1..]);
      if a.Some? && b.Some? then Some(Description(word, [a.value, b.value])) else None
  }

  predicate NoSpace(word: string) {
    forall k :: 0 <= k < |word| ==> word[k] != ' '
  }

  lemma ParseWord(word: string, rest: string)
    requires NoSpace(word)
    ensures ParseInfo(word + [' '] + rest) == ParseNumbers(word, rest)
  {
    var info := word + [' '] + rest;
    FirstIndexOfSeparator(word, ' ', rest);
    assert info[..|word|] == word && info[|word| + 1..] == rest;
  }

  lemma ParseOneNumber(word: string, n: int)
    requires NoSpace(word)
    ensures ParseInfo(word + [' '] + IntToString(n)) == Some(Description(word, [n]))
  {
    var rest := IntToString(n);
    ParseWord(word, rest);
    IntToStringAvoids(n, 'x');
    FirstIndexAbsent(rest, 'x');
    ParseIntOfIntToString(n);
  }

  lemma ParseTwoNumbers(word: string, a: int, b: int)
    requires NoSpace(word)
    ensures ParseInfo(word + [' '] + (IntToString(a) + ['x'] + IntToString(b)))
         == Some(Description(word, [a, b]))
  {
    var first, second := IntToString(a), IntToString(b);
    var rest := first + ['x'] + second;
    ParseWord(word, rest);
    IntToStringAvoids(a, 'x');
    FirstIndexOfSeparator(first, 'x', second);
    assert rest[..|first|] == first && rest[|first| + 1..] == second;
    ParseIntOfIntToString(a);
    ParseIntOfIntToString(b);
  }

  lemma RenderOne(word: string, n: int)
    ensures Render(word, [n]) == word + [' '] + IntToString(n)
  {
  }

  lemma RenderTwo(word: string, a: int, b: int)
    ensures Render(word, [a, b]) == word + [' '] + (IntToString(a) + ['x'] + IntToString(b))
  {
  }

  /** A rendered description reads back as the word and the numbers it was rendered from. */
  lemma ParseRender(word: string, numbers: seq<int>)
    requires NoSpace(word) && 1 <= |numbers| <= 2
    ensures ParseInfo(Render(word, numbers)) == Some(Description(word, numbers))
  {
    if |numbers| == 1 {
      assert numbers == [numbers[0]];
      RenderOne(word, numbers[0]);
      ParseOneNumber(word, numbers[0]);
    } else {
      assert numbers == [numbers[0], numbers[1]];
      RenderTwo(word, numbers[0], numbers[1]);
      ParseTwoNumbers(word, numbers[0], numbers[1]);
    }
  }

  /** A description loses nothing: it reads back as the shape's kind word and shown numbers. */
  lemma InfoReadsBack(s: Shape)
    ensures ParseInfo(Info(s)) == Some(Description(KindWord(s), ShownNumbers(s)))
  {
    assert NoSpace(KindWord(s));
    ParseRender(KindWord(s), ShownNumbers(s));
  }

  /** The oval getters return the radii the constructor stored; a circle stored its radius as both. */
  lemma OvalGetters(id: nat, h: int, v: int, r: int)
    ensures HorizontalRadius(Oval(id, h, v)) == h && VerticalRadius(Oval(id, h, v)) == v
    ensures HorizontalRadius(Circle(id, r)) == r && VerticalRadius(Circle(id, r)) == r
  {
  }

  /** The rectangle getters return the sides the constructor stored; a square stored its side as both. */
  lemma RectangleGetters(id: nat, l: int, w: int, side: int)
    ensures Length(Rectangle(id, l, w)) == l && Width(Rectangle(id, l, w)) == w
    ensures Length(Square(id, side)) == side && Width(Square(id, side)) == side
  {
  }

  /** An oval describes itself as OVAL and its two radii, horizontal first. */
  lemma OvalInfo(id: nat, h: int, v: int)
    ensures HorizontalRadius(Oval(id, h, v)) == h && VerticalRadius(Oval(id, h, v)) == v
    ensures Info(Oval(id, h, v)) == "OVAL " + IntToString(h) + "x" + IntToString(v)
    ensures ParseInfo(Info(Oval(id, h, v))) == Some(Description("OVAL", [h, v]))
  {
    InfoReadsBack(Oval(id, h, v));
  }

  /** A circle is an oval with both radii equal to its radius, and shows that radius once. */
  lemma CircleInfo(id: nat, r: int)
    ensures IsOval(Circle(id, r))
    ensures HorizontalRadius(Circle(id, r)) == r && VerticalRadius(Circle(id, r)) == r
    ensures Info(Circle(id, r)) == "CIRCLE " + IntToString(r)
    ensures ParseInfo(Info(Circle(id, r))) == Some(Description("CIRCLE", [r]))
  {
    InfoReadsBack(Circle(id, r));
  }

  /** A rectangle describes itself as RECTANGLE and its length, then its width. */
  lemma RectangleInfo(id: nat, l: int, w: int)
    ensures Length(Rectangle(id, l, w)) == l && Width(Rectangle(id, l, w)) == w
    ensures Info(Rectangle(id, l, w)) == "RECTANGLE " + IntToString(l) + "x" + IntToString(w)
    ensures ParseInfo(Info(Rectangle(id, l, w))) == Some(Description("RECTANGLE", [l, w]))
  {
    InfoReadsBack(Rectangle(id, l, w));
  }

  /**
   * A square is a rectangle with length and width equal to its side, and its
   * description is the rectangle's: the word RECTANGLE and the side twice.
   */
  lemma SquareInfo(id: nat, side: int)
    ensures IsRectangle(Square(id, side))
    ensures Length(Square(id, side)) == side && Width(Square(id, side)) == side
    ensures Info(Square(id, side)) == Info(Rectangle(id, side, side))
    ensures Info(Square(id, side)) == "RECTANGLE " + IntToString(side) + "x" + IntToString(side)
    ensures ParseInfo(Info(Square(id, side))) == Some(Description("RECTANGLE", [side, side]))
  {
    InfoReadsBack(Square(id, side));
  }

  /** Descriptions of particular shapes, character by character. */
  lemma CircleInfoExample()
    ensures Info(Circle(1, 5)) == "CIRCLE 5"
  {
  }

  lemma OvalInfoExample()
    ensures Info(Oval(2, 3, 7)) == "OVAL 3x7"
    ensures Info(Oval(5, -12, 40)) == "OVAL -12x40"
  {
    assert NatToString(12) == "12" by { assert NatToString(1) == "1"; }
    assert NatToString(40) == "40" by { assert NatToString(4) == "4"; }
  }

  lemma RectangleInfoExample()
    ensures Info(Rectangle(3, 4, 9)) == "RECTANGLE 4x9"
    ensures Info(Square(4, 6)) == "RECTANGLE 6x6"
  {
  }

  /**
   * The process-wide shape counter, made an explicit object. Every shape
   * constructor draws its identifier here; `created` records the shapes in
   * the order they were made.
   */
  class ShapeFactory {
    var counter: nat
    ghost var created: seq<Shape>

    /** The shapes made so far carry the identifiers 1 to `counter`, in creation order. */
    ghost predicate Valid()
      reads this
    {
      |created| == counter &&
      forall k :: 0 <= k < |created| ==> created[k].id == k + 1
    }

    constructor ()
      ensures Valid() && counter == 0 && created == []
    {
      counter := 0;
      created := [];
    }

    /** The base-class constructor's share: increment the counter, then take its value. */
    method NextId() returns (id: nat)
      modifies this
      ensures counter == old(counter) + 1 && id == counter
      ensures created == old(created)
    {
      counter := counter + 1;
      id := counter;
    }

    method NewOval(horizontalRadius: int, verticalRadius: int) returns (s: Shape)
      requires Valid()
      modifies this
      ensures Valid() && counter == old(counter) + 1 && created == old(created) + [s]
      ensures s == Oval(counter, horizontalRadius, verticalRadius)
    {
      var id := NextId();
      s := Oval(id, horizontalRadius, verticalRadius);
      created := created + [s];
    }

    method NewCircle(radius: int) returns (s: Shape)
      requires Valid()
      modifies this
      ensures Valid() && counter == old(counter) + 1 && created == old(created) + [s]
      ensures s == Circle(counter, radius)
    {
      var id := NextId();
      s := Circle(id, radius);
      created := created + [s];
    }

    method NewRectangle(length: int, width: int) returns (s: Shape)
      requires Valid()
      modifies this
      ensures Valid() && counter == old(counter) + 1 && created == old(created) + [s]
      ensures s == Rectangle(counter, length, width)
    {
      var id := NextId();
      s := Rectangle(id, length, width);
      created := created + [s];
    }

    method NewSquare(side: int) returns (s: Shape)
      requires Valid()
      modifies this
      ensures Valid() && counter == old(counter) + 1 && created == old(created) + [s]
      ensures s == Square(counter, side)
    {
      var id := NextId();
      s := Square(id, side);
      created := created + [s];
    }
  }

  /** Shapes made by one factory have pairwise different identifiers, rising with creation order. */
  lemma {:induction false} CreatedIdsIncrease(f: ShapeFactory, i: nat, j: nat)
    requires f.Valid() && i < j < |f.created|
    ensures f.created[i].id < f.created[j].id
    ensures f.created[i] != f.created[j]
  {
  }
}
