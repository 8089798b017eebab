# Shapes on a canvas

A model of a small Java program (`Main.java`). It has four shape kinds (oval, circle,
rectangle, square), each with a process-wide sequential identifier and a one-line description.
A canvas owns a growing list of shapes. It fills itself with a batch of ten random shapes and
prints a report.

The model has three modules:

- `Format` renders integers the way the `%d` conversion of `String.format` writes them in a
  locale with ASCII digits. `ParseInt` reads every rendering back as the integer rendered. It
  also accepts strings that are not renderings, such as `03`.
- `Shapes` has four parts:
  - the `Shape` datatype, with one constructor per class;
  - the getters (`HorizontalRadius`, `VerticalRadius`, `Length`, `Width`; `getId` is the `id`
    field);
  - `Info`, which models `getInfo`;
  - `ShapeFactory`, the static counter of the shape base class made into an explicit object.
    Every shape constructor takes its identifier from it.

  `ParseInfo` reads a description back. The lemmas use it to state which kind word and which
  numbers a description shows.
- `Canvases` has three parts:
  - `Random`, the random source as an oracle whose `NextInt(bound)` returns a value in
    `[0, bound)`;
  - the `Canvas` class (`AddShape`, `GetShapes`, `GenerateRandomShapes`, `GenerateRandomShape`,
    `DisplayShapes`);
  - `Batch`, a pure specification of what one generation run appends, given the values the
    random source handed out.

Behaviour of the program that the model makes explicit:

- **The duplicate test compares objects, not dimensions.** `generateRandomShapes` skips a
  candidate when `addedShapes.contains(newShape)` holds. Its comment and its documentation
  promise "non-duplicate" shapes. But the shape classes do not override `equals`, so `contains`
  compares references, and the candidate is always an object constructed a moment before.
  - In the model, object identity is the identifier. `ShapeFactory.Valid` is the invariant that
    the shapes made so far carry the identifiers 1 to N in creation order. `CreatedIdsIncrease`
    proves from it that every shape made gets its own identifier.
  - The test therefore never rejects, and the loop runs exactly ten times. The termination proof
    of the loop depends on this.
  - `RepeatedDrawsRepeatShapes` and `TenEqualCirclesCanBeDrawn` show that two shapes of the
    same kind and dimensions can both end up in a batch.
- **A square describes itself as a rectangle.** `CSquare` does not override `getInfo`, so a
  square of side 6 prints as `RECTANGLE 6x6` (`SquareInfo`). The model keeps this behaviour.
- **A circle shows one radius.** It prints its horizontal radius, which equals its vertical one.

## Model

| member | source | states |
|---|---|---|
| `Format.NatToString` | Main.java:70 | the `%d` digits of a natural number: at least one digit, all decimal digits, and a leading `0` only for zero |
| `Format.DigitsValueOfNatToString` | Main.java:70 | the digits written for `n` denote `n` again |
| `Format.IntToString` | Main.java:70 | `%d` of an int: a minus sign first exactly for negative values; after it, or from the start for other values, at least one character and only decimal digits |
| `Format.ParseIntOfIntToString` | Main.java:70 | every rendered integer reads back as itself, so different numbers print differently |
| `Shapes.ParseRender` | Main.java:70 | a description rendered from the templates `WORD %d` or `WORD %dx%d` reads back as that word and those numbers |
| `Shapes.OvalGetters` | Main.java:78-89 | `getHorizontalRadius` and `getVerticalRadius` return the radii the oval was built with; a circle's both return its radius |
| `Shapes.RectangleGetters` | Main.java:150-161 | `getLength` and `getWidth` return the sides the rectangle was built with; a square's both return its side |
| `Shapes.Info` | Main.java:68-143 | `getInfo` per class: `OVAL hxv` from an oval's radii, `CIRCLE r` from a circle's radius, `RECTANGLE lxw` from the sides of a rectangle and of a square |
| `Shapes.InfoReadsBack` | Main.java:68-143 | every shape's description reads back as its kind word and the numbers it shows |
| `Shapes.OvalInfo` | Main.java:57-71 | an oval keeps the radii it was built with; its description is exactly `OVAL ` + h + `x` + v, and reads back as `OVAL` with [h, v] |
| `Shapes.CircleInfo` | Main.java:101-113 | a circle of radius r is an oval with both radii r; its description is exactly `CIRCLE ` + r, and reads back as `CIRCLE` with [r] |
| `Shapes.RectangleInfo` | Main.java:129-143 | a rectangle keeps its length and width; its description is exactly `RECTANGLE ` + l + `x` + w, and reads back as `RECTANGLE` with [l, w] |
| `Shapes.SquareInfo` | Main.java:167-176 | a square of side s is a rectangle with length = width = s; its description is the rectangle's, exactly `RECTANGLE ` + s + `x` + s, and reads back as `RECTANGLE` with [s, s] |
| `Shapes.CircleInfoExample` | Main.java:110-113 | a circle of radius 5 is described as `CIRCLE 5` |
| `Shapes.OvalInfoExample` | Main.java:68-71 | ovals (3,7) and (-12,40) are described as `OVAL 3x7` and `OVAL -12x40` |
| `Shapes.RectangleInfoExample` | Main.java:140-143 | rectangle (4,9) is `RECTANGLE 4x9`, and square 6 is `RECTANGLE 6x6` |
| `Shapes.ShapeFactory.constructor` | Main.java:17 | the counter starts at 0 with no shapes made |
| `Shapes.ShapeFactory.NextId` | Main.java:23-25 | pre-increment: the counter goes up by one and the new value is the identifier |
| `Shapes.ShapeFactory.NewOval` | Main.java:57-61 | the new oval has the next identifier and the given radii; the made shapes keep identifiers 1..N in order |
| `Shapes.ShapeFactory.NewCircle` | Main.java:101-103 | the new circle has the next identifier and the given radius; identifiers stay 1..N in order |
| `Shapes.ShapeFactory.NewRectangle` | Main.java:129-133 | the new rectangle has the next identifier and the given sides; identifiers stay 1..N in order |
| `Shapes.ShapeFactory.NewSquare` | Main.java:173-175 | the new square has the next identifier and the given side; identifiers stay 1..N in order |
| `Shapes.CreatedIdsIncrease` | Main.java:17-25 | shapes made earlier have smaller identifiers, so no two shapes share one |
| `Canvases.Random.NextInt` | Main.java:220 | each drawn value lies in `[0, bound)` and is recorded in order |
| `Canvases.Make` | Main.java:238-250 | the shape built for a type has that type and the given identifier, and every dimension is a draw plus one, in [1, 100] |
| `Canvases.Batch` | Main.java:219-228 | one shape per loop pass |
| `Canvases.BatchAt` | Main.java:219-228 | pass k builds a shape of the drawn type from the drawn dimensions, with identifier firstId + k |
| `Canvases.BatchShapes` | Main.java:219-246 | the batch's identifiers are consecutive from firstId, each shape has its drawn type, and every dimension lies in [1, 100] |
| `Canvases.RepeatedDrawsRepeatShapes` | Main.java:223-227 | two passes with the same draws give two shapes of the same kind and dimensions but different identifiers |
| `Canvases.TenEqualCirclesCanBeDrawn` | Main.java:219-228 | a legal run can give ten circles of radius 1 with identifiers firstId..firstId+9 |
| `Canvases.ContainsObject` | Main.java:224 | `contains` by identity: a list that holds the shape contains it |
| `Canvases.FreshNotContained` | Main.java:223-224 | a shape whose identifier exceeds every identifier in the list is not contained in it, so the freshly made candidate always passes the test |
| `Canvases.ReportLineReadsBack` | Main.java:258 | the line `Shape <id>: <info>` reads back as the shape's identifier and its description, so the line shows both unaltered |
| `Canvases.Report` | Main.java:255-259 | the report has one line more than there are shapes |
| `Canvases.ReportAt` | Main.java:255-259 | line 0 is the header, and line k is `Shape <id>: <description>` of the k-th shape |
| `Canvases.ReportSnoc` | Main.java:257-258 | one more shape adds exactly its own line at the end |
| `Canvases.ReportExample` | Main.java:255-259 | a circle of radius 2 (id 1) and a square of side 3 (id 2) give the header, `Shape 1: CIRCLE 2` and `Shape 2: RECTANGLE 3x3` |
| `Canvases.CircleLineExample` | Main.java:258 | the line for circle 1 of radius 2 is `Shape 1: CIRCLE 2` |
| `Canvases.SquareLineExample` | Main.java:258 | the line for square 2 of side 3 is `Shape 2: RECTANGLE 3x3` |
| `Canvases.Canvas.constructor` | Main.java:189-191 | the canvas starts with the given list |
| `Canvases.Canvas.GetShapes` | Main.java:198-200 | returns the canvas's list as it is |
| `Canvases.Canvas.AddShape` | Main.java:207-209 | appends exactly the given shape at the end; earlier shapes are unchanged |
| `Canvases.Canvas.GenerateRandomShapes` | Main.java:214-229 | exactly ten passes; the canvas list becomes the old list followed by the batch, the counter advances by ten, and the random source handed out exactly the batch's draws |
| `Canvases.Canvas.GenerateRandomShape` | Main.java:238-250 | one identifier is taken, the right number of values below 100 is drawn, and the shape is `Make` of the type, draws and identifier |
| `Canvases.Canvas.DisplayShapes` | Main.java:255-259 | the lines produced are the report of the canvas's list |
| `Canvases.RunProgram` | Main.java:272-279 | with a fresh counter and an empty canvas: ten shapes with identifiers 1 to 10 in order, every dimension in [1, 100], and their report |

## Left out

- Printing. `displayShapes` and `main` write to standard output. The model returns the lines
  instead (`DisplayShapes`, `RunProgram`).
- The generator behind `java.util.Random` and its statistics (uniformity). `Random.NextInt` is an
  oracle that promises only the range. `generateRandomShapes` creates its own `Random`; the
  model passes it in as a parameter.
- Canvases.Random.NextInt: requires a positive bound. Java throws `IllegalArgumentException` otherwise. The
  program only ever passes 4 and 100.
- Java `int` width. The counter is a `nat` and dimensions are unbounded `int`s, so values
  outside the 32-bit range, such as the counter wrapping around after 2^31 - 1 constructions,
  are not modelled.
- The `Class` objects that select a shape type. They are replaced by the `ShapeType` datatype,
  listed in the same order. With four cases matched exhaustively, the branch that throws
  `IllegalArgumentException` for an unknown type cannot be reached and has no counterpart.
- Aliasing of the list. `CCanvas` keeps the list object its caller passes, and `getShapes`
  returns that same object, so outside code can change the canvas. The model holds the list as a
  value; changes made through an alias are not captured.
- Object identity. Java compares shape objects by reference. The model compares identifiers.
  This is exact for shapes made by one `ShapeFactory`, whose identifiers are proved distinct.
- `String.format` beyond `%d` of an integer.
- Locales. `String.format` uses the default locale, and `%d` writes that locale's digits (Thai
  digits under `th-TH-u-nu-thai`, for example). The model assumes a default locale whose digits
  are the ASCII `0` to `9`, as `NatToString` writes them.
