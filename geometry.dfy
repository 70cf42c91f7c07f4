/** Values shared by the camera and the paint view: points and vectors over
    the reals, the pointer/keyboard event abstraction with Qt's constants,
    and the platform math routines that the model leaves uninterpreted. */
module Geometry {

  datatype Option<T> = None | Some(value: T)

  /** A 3D point or direction (Point3 / Vector3 in the source). */
  datatype Vec3 = Vec3(x: real, y: real, z: real)

  function Add(a: Vec3, b: Vec3): Vec3 {
    Vec3(a.x + b.x, a.y + b.y, a.z + b.z)
  }

  function Scale(a: Vec3, k: real): Vec3 {
    Vec3(a.x * k, a.y * k, a.z * k)
  }

  function Neg(a: Vec3): Vec3 {
    Scale(a, -1.0)
  }

  /** A 2D screen-space point (Point2 in the source): viewport pixels, Y up. */
  datatype Point2 = Point2(x: real, y: real)

  /** The default-constructed point, which the source treats as "no point". */
  const Origin := Point2(0.0, 0.0)

  predicate IsNull(p: Point2) {
    p.x == 0.0 && p.y == 0.0
  }

  /** prev * a + p * (1 - a): the point a of the way from p back towards prev. */
  function Lerp(prev: Point2, p: Point2, a: real): Point2 {
    Point2(prev.x * a + p.x * (1.0 - a), prev.y * a + p.y * (1.0 - a))
  }

  /** A mouse event: the button that changed, the position in widget pixels
      (Y down, as Qt reports it) and whether Alt was held. */
  datatype MouseEvent = MouseEvent(button: nat, x: int, y: int, alt: bool)

  // Qt::MouseButton values
  const NoButton: nat := 0
  const LeftButton: nat := 1
  const RightButton: nat := 2
  const MiddleButton: nat := 4

  /** `button & Qt::LeftButton` is non-zero. */
  predicate HasLeftBit(button: nat) {
    button % 2 == 1
  }

  // Qt::Key values
  const KeySpace: int := 0x20
  const KeyBracketLeft: int := 0x5b
  const KeyBracketRight: int := 0x5d

  /** The C math library routines the camera uses; their numerics are not
      part of the model, so each is an arbitrary function supplied by the caller. */
  datatype MathLib = MathLib(sqrt: real -> real, acos: real -> real, tan: real -> real)
}
