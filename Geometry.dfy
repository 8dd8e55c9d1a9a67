/** Directions, rectangles and the one-step move shared by the player and the game panel. */
module Geometry {
  import JavaInt

  /** The four movement directions (entity/Direction.java). */
  datatype Direction = Up | Down | Left | Right

  /** java.awt.Rectangle: a position and a size. */
  datatype Rect = Rect(x: int, y: int, width: int, height: int)

  /** The unit displacement of a direction, screen y growing downwards. */
  function Dx(d: Direction): int {
    match d
    case Left => -1
    case Right => 1
    case _ => 0
  }

  function Dy(d: Direction): int {
    match d
    case Up => -1
    case Down => 1
    case _ => 0
  }

  /**
   * The position after `worldY -= speed`, `worldY += speed`, `worldX -= speed`
   * or `worldX += speed`, chosen by direction, in Java int arithmetic.
   */
  function Move(x: int, y: int, d: Direction, speed: int): (p: (int, int))
    requires JavaInt.IsInt(x) && JavaInt.IsInt(y)
    ensures p == (JavaInt.Wrap(x + Dx(d) * speed), JavaInt.Wrap(y + Dy(d) * speed))
    ensures d.Up? || d.Down? ==> p.0 == x
    ensures d.Left? || d.Right? ==> p.1 == y
  {
    match d
    case Up => (x, JavaInt.Wrap(y - speed))
    case Down => (x, JavaInt.Wrap(y + speed))
    case Left => (JavaInt.Wrap(x - speed), y)
    case Right => (JavaInt.Wrap(x + speed), y)
  }
}
