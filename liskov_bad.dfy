/**
 * The Liskov substitution principle, violated: a square is a rectangle
 * whose width and height setters both write both sides, so code written
 * for rectangles gets a different area when handed a square.  Sides and
 * area are C# `int`s; the area's multiplication wraps around.
 */
module LiskovSubstitutionBad {
  import opened Int32

  class Rectangle {
    var width: int
    var height: int
    /** Whether the object is a `Square`, whose setters are overridden. */
    const isSquare: bool

    ghost predicate Valid()
      reads this
    {
      InRange(width) && InRange(height) && (isSquare ==> width == height)
    }

    /** `new Rectangle()`: both sides 0. */
    constructor()
      ensures Valid() && !isSquare && width == 0 && height == 0
    {
      width := 0;
      height := 0;
      isSquare := false;
    }

    /** `new Square()`: both sides 0. */
    constructor Square()
      ensures Valid() && isSquare && width == 0 && height == 0
    {
      width := 0;
      height := 0;
      isSquare := true;
    }

    /** The `Width` setter: a rectangle's height is untouched; a square's follows. */
    method SetWidth(value: int)
      requires Valid() && InRange(value)
      modifies this
      ensures Valid() && width == value
      ensures height == if isSquare then value else old(height)
    {
      if isSquare {
        width, height := value, value;
      } else {
        width := value;
      }
    }

    /** The `Height` setter: a rectangle's width is untouched; a square's follows. */
    method SetHeight(value: int)
      requires Valid() && InRange(value)
      modifies this
      ensures Valid() && height == value
      ensures width == if isSquare then value else old(width)
    {
      if isSquare {
        width, height := value, value;
      } else {
        height := value;
      }
    }

    /** `Width * Height` in unchecked 32-bit arithmetic. */
    function CalculateArea(): (area: int)
      reads this
      ensures InRange(area)
      ensures InRange(width * height) ==> area == width * height
    {
      Wrap(width * height)
    }
  }

  /**
   * The test's `TestRectangle`: set width 5 then height 10 and check for an
   * area of 50.  It holds exactly for a plain rectangle; a square ends up
   * 10 by 10, with area 100.
   */
  method TestRectangle(rectangle: Rectangle) returns (passes: bool, area: int)
    requires rectangle.Valid()
    modifies rectangle
    ensures passes <==> !rectangle.isSquare
    ensures area == if rectangle.isSquare then 100 else 50
  {
    rectangle.SetWidth(5);
    rectangle.SetHeight(10);
    area := rectangle.CalculateArea();
    passes := area == 50;
  }

  /** The test: the rectangle passes, the square substituted for it does not. */
  method LiskovScenario() returns (rectanglePasses: bool, rectangleArea: int, squarePasses: bool, squareArea: int)
    ensures rectanglePasses && rectangleArea == 50
    ensures !squarePasses && squareArea == 100
  {
    var rectangle := new Rectangle();
    rectanglePasses, rectangleArea := TestRectangle(rectangle);
    var square := new Rectangle.Square();
    squarePasses, squareArea := TestRectangle(square);
  }
}
