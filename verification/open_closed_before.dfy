/**
 * Open-closed, before: the calculator inspects each value's class and knows
 * the area formula of every shape itself; anything it does not recognise
 * adds nothing.
 */
module OpenClosedBefore {
  import After = OpenClosedAfter

  /** A value in the calculator's input: one of the two known shapes, or anything else. */
  datatype Value =
    | Square(width: real, height: real)
    | Circle(radius: real)
    | Unrecognised

  /**
   * What one value adds to the total: a square or a circle adds what the
   * corresponding shape of the later design gives as its area, anything
   * else adds nothing.
   */
  function Contribution(v: Value): (c: real)
    ensures v.Unrecognised? ==> c == 0.0
    ensures !v.Unrecognised? ==> c == AsShape(v).Area()
  {
    match v
    case Square(w, h) => w * h
    case Circle(r) => r * r * After.PI
    case Unrecognised => 0.0
  }

  function Total(values: seq<Value>): real
  {
    if values == [] then 0.0 else Total(values[..|values| - 1]) + Contribution(values[|values| - 1])
  }

  /** The calculator: walks the values in order, dispatching on their kind. */
  method Calculate(shapes: seq<Value>) returns (area: real)
    ensures area == Total(shapes)
    ensures shapes == [] ==> area == 0.0
  {
    area := 0.0;
    for i := 0 to |shapes|
      invariant area == Total(shapes[..i])
    {
      assert shapes[..i + 1][..i] == shapes[..i];
      var shape := shapes[i];
      if shape.Square? {
        area := area + shape.width * shape.height;
      } else if shape.Circle? {
        area := area + shape.radius * shape.radius * After.PI;
      }
    }
    assert shapes[..|shapes|] == shapes;
  }

  lemma {:induction false} TotalAppend(a: seq<Value>, b: seq<Value>)
    ensures Total(a + b) == Total(a) + Total(b)
    decreases |b|
  {
    if b == [] {
      assert a + b == a;
    } else {
      assert (a + b)[..|a + b| - 1] == a + b[..|b| - 1];
      TotalAppend(a, b[..|b| - 1]);
    }
  }

  /** Dropping an unrecognised value anywhere in the list leaves the total unchanged. */
  lemma IgnoresUnrecognised(a: seq<Value>, b: seq<Value>)
    ensures Total(a + [Unrecognised] + b) == Total(a + b)
  {
    TotalAppend(a + [Unrecognised], b);
    TotalAppend(a, [Unrecognised]);
    TotalAppend(a, b);
  }

  /** The corresponding shape of the later design; unrecognised values have none. */
  function AsShape(v: Value): After.Shape
    requires !v.Unrecognised?
  {
    match v
    case Square(w, h) => After.Square(w, h)
    case Circle(r) => After.Circle(r)
  }

  function AsShapes(values: seq<Value>): (shapes: seq<After.Shape>)
    requires forall i :: 0 <= i < |values| ==> !values[i].Unrecognised?
    ensures |shapes| == |values|
  {
    if values == [] then [] else AsShapes(values[..|values| - 1]) + [AsShape(values[|values| - 1])]
  }

  /** On squares and circles alone, both calculators give the same total. */
  lemma {:induction false} AgreesWithAfter(values: seq<Value>)
    requires forall i :: 0 <= i < |values| ==> !values[i].Unrecognised?
    ensures Total(values) == After.SumAreas(AsShapes(values))
    decreases |values|
  {
    if values != [] {
      var init, last := values[..|values| - 1], values[|values| - 1];
      AgreesWithAfter(init);
      var shapes := AsShapes(values);
      assert shapes == AsShapes(init) + [AsShape(last)];
      assert shapes[..|shapes| - 1] == AsShapes(init);
      assert After.SumAreas(shapes) == After.SumAreas(AsShapes(init)) + AsShape(last).Area();
    }
  }
}
