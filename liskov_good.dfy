/**
 * The Liskov substitution principle, followed: rectangle and square are
 * separate immutable shapes that only share the area calculation, so no
 * shape can break another's contract.  Sides and area are C# `int`s; the
 * area's multiplication wraps around.
 */
module LiskovSubstitutionGood {
  import opened Int32

  /** The two `readonly record struct`s implementing the shape interface; `default` is all zero. */
  datatype Shape =
    | Rectangle(width: int, height: int)
    | Square(side: int)

  function CalculateArea(shape: Shape): (area: int)
    ensures InRange(area)
  {
    match shape
    case Rectangle(width, height) => Wrap(width * height)
    case Square(side) => Wrap(side * side)
  }

  /** A square of side `s` has the area of the `s` by `s` rectangle. */
  lemma SquareIsRectangleArea(side: int)
    ensures CalculateArea(Square(side)) == CalculateArea(Rectangle(side, side))
  {
  }

  /** Within 32 bits the area is the plain product, and it does not depend on which side is which. */
  lemma AreaIsProduct(width: int, height: int)
    requires InRange(width * height)
    ensures CalculateArea(Rectangle(width, height)) == width * height == CalculateArea(Rectangle(height, width))
  {
  }

  /** Default values have area 0. */
  lemma DefaultsHaveNoArea()
    ensures CalculateArea(Rectangle(0, 0)) == 0 && CalculateArea(Square(0)) == 0
  {
  }

  /**
   * The test's width-5-height-10 check, done with `with` on an immutable
   * rectangle, gives 50 whatever rectangle it starts from.
   */
  lemma WithSidesHasTheirArea(rectangle: Shape)
    requires rectangle.Rectangle?
    ensures CalculateArea(rectangle.(width := 5).(height := 10)) == 50
  {
  }
}
