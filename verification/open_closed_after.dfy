/**
 * Open-closed, after: every shape knows its own area, and the calculator
 * sums areas without knowing which shapes exist.
 */
module OpenClosedAfter {

  type Positive = r: real | r > 0.0 witness 1.0

  /** PHP's pi(), left abstract: the model relies only on its being positive. */
  const PI: Positive

  /** The shapes implementing the area interface. Dimensions are set at construction and never changed. */
  datatype Shape =
    | Square(width: real, height: real)
    | Circle(radius: real)
    | Triangle(base: real, height: real)
    | Rectangle(length: real, width: real)
  {
    /** The shape's own area formula; never negative when no dimension is. */
    function Area(): (area: real)
      ensures WellFormed() ==> area >= 0.0
    {
      assert Circle? ==> radius * radius >= 0.0;
      match this
      case Square(w, h) => w * h
      case Circle(r) => r * r * PI
      case Triangle(b, h) => 0.5 * b * h
      case Rectangle(l, w) => l * w
    }

    /** No dimension is negative. */
    predicate WellFormed()
    {
      match this
      case Square(w, h) => w >= 0.0 && h >= 0.0
      case Circle(r) => true
      case Triangle(b, h) => b >= 0.0 && h >= 0.0
      case Rectangle(l, w) => l >= 0.0 && w >= 0.0
    }
  }

  /** The areas of the shapes added up from the first to the last. */
  function SumAreas(shapes: seq<Shape>): real
  {
    if shapes == [] then 0.0 else SumAreas(shapes[..|shapes| - 1]) + shapes[|shapes| - 1].Area()
  }

  /** The sample figures: a 3 by 4 rectangle, a circle of radius 2 and a triangle of base 6 and height 4. */
  lemma AreaExamples()
    ensures Rectangle(3.0, 4.0).Area() == 12.0
    ensures Circle(2.0).Area() == 4.0 * PI
    ensures Triangle(6.0, 4.0).Area() == 12.0
  {
  }

  /** The total over a concatenation is the sum of the totals. */
  lemma {:induction false} SumAreasAppend(a: seq<Shape>, b: seq<Shape>)
    ensures SumAreas(a + b) == SumAreas(a) + SumAreas(b)
    decreases |b|
  {
    if b == [] {
      assert a + b == a;
    } else {
      assert (a + b)[..|a + b| - 1] == a + b[..|b| - 1];
      SumAreasAppend(a, b[..|b| - 1]);
    }
  }

  /** Well-formed shapes give a non-negative total. */
  lemma {:induction false} SumAreasNonNegative(shapes: seq<Shape>)
    requires forall i :: 0 <= i < |shapes| ==> shapes[i].WellFormed()
    ensures SumAreas(shapes) >= 0.0
    decreases |shapes|
  {
    if shapes != [] {
      SumAreasNonNegative(shapes[..|shapes| - 1]);
    }
  }

  /** The calculator: accumulates each shape's area in list order. */
  method Calculate(shapes: seq<Shape>) returns (area: real)
    ensures area == SumAreas(shapes)
    ensures shapes == [] ==> area == 0.0
  {
    area := 0.0;
    for i := 0 to |shapes|
      invariant area == SumAreas(shapes[..i])
    {
      assert shapes[..i + 1][..i] == shapes[..i];
      area := area + shapes[i].Area();
    }
    assert shapes[..|shapes|] == shapes;
  }
}
