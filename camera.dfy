/** The two camera kinds of camera.cpp and the drag state machine that moves
    them.  The orbit-derived vectors of camera.h (eye, look, up and left
    directions) are not part of this model: an OrbitFrame supplies them as
    functions of the stored orbit parameters. */
module Camera {
  import opened Geometry

  /** What a drag does, chosen by the button that started it. */
  datatype MoveType = NotMoving | Rotating | Panning | Trucking

  /** camera.h's derived vectors: eye(center, distance, yaw, pitch) and the
      look, up and left directions for a yaw and pitch. */
  datatype OrbitFrame = OrbitFrame(
    eye: (Vec3, real, real, real) -> Vec3,
    lookDir: (real, real) -> Vec3,
    upDir: (real, real) -> Vec3,
    leftDir: (real, real) -> Vec3)

  /** A pointer position in widget pixels. */
  datatype Pixel = Pixel(x: int, y: int)

  /** Yaw (rotation about the vertical axis) and pitch, in degrees. */
  datatype Orientation = Orientation(yaw: real, pitch: real)

  /** Bounds handed to QMatrix4x4::frustum / ortho. */
  datatype Frustum = Frustum(left: real, right: real, bottom: real, top: real, near: real, far: real)

  /** An angle in degrees about an axis (QVector4D(angle, x, y, z)). */
  datatype Rotation = Rotation(angle: real, axis: Vec3)

  datatype RotatePair = RotatePair(rot1: Rotation, rot2: Rotation)

  /** A view transform, kept symbolic. */
  datatype ViewTransform = Identity | LookAt(eye: Vec3, target: Vec3, up: Vec3)

  const RotateScale: real := 0.5
  const PanScale: real := 0.05
  const TruckScale: real := 0.01
  const MinZoom: real := 0.1
  const ZNear: real := 0.1
  const ZFar: real := 100.0
  const XAxis := Vec3(1.0, 0.0, 0.0)
  const YAxis := Vec3(0.0, 1.0, 0.0)
  /** PI as defined before PerspectiveCamera::aim. */
  const Pi: real := 3.14159265359

  /** Per-view interaction scratch: the current move type, the last pointer
      sample, the basis snapshot taken when a pan starts, and the viewport
      size. */
  class CameraScratch {
    var moveType: MoveType
    var pickX: int
    var pickY: int
    var origEye: Vec3
    var origUp: Vec3
    var origLeft: Vec3
    var viewWidth: int
    var viewHeight: int

    constructor ()
      ensures moveType == NotMoving && pickX == 0 && pickY == 0
      ensures viewWidth == 0 && viewHeight == 0
    {
      moveType := NotMoving;
      pickX, pickY := 0, 0;
      origEye, origUp, origLeft := Vec3(0.0, 0.0, 0.0), Vec3(0.0, 0.0, 0.0), Vec3(0.0, 0.0, 0.0);
      viewWidth, viewHeight := 0, 0;
    }
  }

  /** One rotating drag step: yaw follows the horizontal pixel delta and
      pitch the vertical one, half a degree per pixel. */
  function RotateStep(o: Orientation, xDiff: int, yDiff: int): Orientation {
    Orientation(o.yaw + xDiff as real * RotateScale, o.pitch + yDiff as real * -RotateScale)
  }

  /** The orientation after a rotating drag through path, the pick position
      starting at pick and following each sample. */
  function RotatedAlong(o: Orientation, pick: Pixel, path: seq<Pixel>): Orientation
    decreases |path|
  {
    if path == [] then o
    else RotatedAlong(RotateStep(o, pick.x - path[0].x, pick.y - path[0].y), path[0], path[1..])
  }

  /** Because every step measures from the previous sample, the rotation of a
      whole drag depends only on where it started and where it ended. */
  lemma {:induction false} RotationTelescopes(o: Orientation, pick: Pixel, path: seq<Pixel>)
    requires path != []
    ensures var last := path[|path| - 1];
            RotatedAlong(o, pick, path)
            == Orientation(o.yaw + (pick.x - last.x) as real * RotateScale,
                           o.pitch - (pick.y - last.y) as real * RotateScale)
    decreases |path|
  {
    if |path| > 1 {
      RotationTelescopes(RotateStep(o, pick.x - path[0].x, pick.y - path[0].y), path[0], path[1..]);
    }
  }

  /** The orthographic zoom after one trucking step: grows with the vertical
      delta and is floored at MinZoom. */
  function TruckZoom(fov: real, yDiff: int): (r: real)
    ensures r >= MinZoom && r >= fov + TruckScale * yDiff as real
    ensures r == MinZoom || r == fov + TruckScale * yDiff as real
  {
    if MinZoom >= fov + TruckScale * yDiff as real then MinZoom else fov + TruckScale * yDiff as real
  }

  /** The zoom after a trucking drag through path. */
  function ZoomAlong(fov: real, pick: Pixel, path: seq<Pixel>): real
    decreases |path|
  {
    if path == [] then fov
    else ZoomAlong(TruckZoom(fov, pick.y - path[0].y), path[0], path[1..])
  }

  /** However far a trucking drag goes, the zoom never falls below MinZoom;
      starting from a zoom at or above the floor (0.6 initially), it stays
      there, and a step that would cross the floor lands on it exactly. */
  lemma {:induction false} ZoomNeverBelowFloor(fov: real, pick: Pixel, path: seq<Pixel>)
    requires fov >= MinZoom || path != []
    ensures ZoomAlong(fov, pick, path) >= MinZoom
    ensures path != [] && fov + TruckScale * (pick.y - path[0].y) as real <= MinZoom && |path| == 1
            ==> ZoomAlong(fov, pick, path) == MinZoom
    decreases |path|
  {
    if path != [] {
      ZoomNeverBelowFloor(TruckZoom(fov, pick.y - path[0].y), path[0], path[1..]);
    }
  }

  /** The pick position once the drag has followed path. */
  function LastPick(pick: Pixel, path: seq<Pixel>): Pixel {
    if path == [] then pick else path[|path| - 1]
  }

  /** One more drag sample applies one more trucking step, measured from
      the previous sample. */
  lemma {:induction false} ZoomAlongSnoc(fov: real, pick: Pixel, path: seq<Pixel>, q: Pixel)
    ensures ZoomAlong(fov, pick, path + [q])
            == TruckZoom(ZoomAlong(fov, pick, path), LastPick(pick, path).y - q.y)
    decreases |path|
  {
    if path != [] {
      assert (path + [q])[0] == path[0];
      assert (path + [q])[1..] == path[1..] + [q];
      ZoomAlongSnoc(TruckZoom(fov, pick.y - path[0].y), path[0], path[1..], q);
      assert LastPick(path[0], path[1..]) == LastPick(pick, path);
    }
  }

  /** Repeated trucking: a drag ends exactly on the floor if and only if its
      last step would have crossed it, however many steps came before. */
  lemma ZoomLandsOnFloor(fov: real, pick: Pixel, path: seq<Pixel>)
    requires path != []
    ensures var n := |path|;
            var step := TruckScale * (LastPick(pick, path[..n - 1]).y - path[n - 1].y) as real;
            ZoomAlong(fov, pick, path) == MinZoom
            <==> ZoomAlong(fov, pick, path[..n - 1]) + step <= MinZoom
  {
    var n := |path|;
    assert path == path[..n - 1] + [path[n - 1]];
    ZoomAlongSnoc(fov, pick, path[..n - 1], path[n - 1]);
  }

  function XzLen(dir: Vec3, math: MathLib): real {
    math.sqrt(dir.x * dir.x + dir.z * dir.z)
  }

  function YzLen(dir: Vec3, math: MathLib): real {
    math.sqrt(dir.y * dir.y + XzLen(dir, math) * XzLen(dir, math))
  }

  /** The rotation about y from the direction's projection on the x-z plane,
      special-cased when that projection has zero length. */
  function AimYaw(dir: Vec3, math: MathLib): real {
    var xz := XzLen(dir, math);
    if xz == 0.0 then (if dir.y < 0.0 then 180.0 else 0.0)
    else 180.0 * math.acos(dir.z / xz) / Pi
  }

  /** The rotation about x from the projection on the y-z plane. */
  function AimPitch(dir: Vec3, math: MathLib): real
    requires YzLen(dir, math) != 0.0
  {
    180.0 * math.acos(XzLen(dir, math) / YzLen(dir, math)) / Pi
  }

  /** The perspective camera: an orbit (center, distance, yaw, pitch) and a
      field of view in degrees. */
  class PerspectiveCamera {
    const frame: OrbitFrame
    var center: Vec3
    var distance: real
    var yRot: real
    var upRot: real
    var fov: real

    /** Default orbit: yaw 225, pitch 45, distance |(4, 2, 4)| = 6, then the
        centre moved to minus the look direction. The field of view is set
        by camera.h, which is not part of this model. */
    constructor (frame: OrbitFrame, fov: real)
      ensures this.frame == frame && this.fov == fov
      ensures yRot == 225.0 && upRot == 45.0 && distance == 6.0
      ensures center == Neg(frame.lookDir(225.0, 45.0))
    {
      this.frame := frame;
      this.fov := fov;
      yRot := 225.0;
      upRot := 45.0;
      distance := 6.0;
      center := Neg(frame.lookDir(225.0, 45.0));
    }

    function Orient(): Orientation
      reads this
    {
      Orientation(yRot, upRot)
    }

    function Eye(): Vec3
      reads this
    {
      frame.eye(center, distance, yRot, upRot)
    }

    function LookDir(): Vec3
      reads this
    {
      frame.lookDir(yRot, upRot)
    }

    function UpDir(): Vec3
      reads this
    {
      frame.upDir(yRot, upRot)
    }

    function LeftDir(): Vec3
      reads this
    {
      frame.leftDir(yRot, upRot)
    }

    /** The frustum of getProjMatrix. With a zero width or height the source
        divides zero by zero and its bounds are NaN; the model has none. */
    function ProjBounds(width: int, height: int, math: MathLib): (r: Option<Frustum>)
      reads this
      ensures r.Some? <==> width != 0 && height != 0
      ensures r.Some? ==>
                var f := r.value;
                && f.bottom == -f.top
                && f.left == -f.right
                && f.right == (width as real / height as real) * f.top
                && f.top == math.tan(fov * 3.14159 / 360.0) * ZNear
                && f.near == ZNear && f.far == ZFar
    {
      if width == 0 || height == 0 then None
      else
        var aspect := width as real / height as real;
        var top := math.tan(fov * 3.14159 / 360.0) * ZNear;
        var bottom := -top;
        var left := aspect * bottom;
        var right := aspect * top;
        var xwsize := right - left;
        var ywsize := top - bottom;
        var pixdx, pixdy := 0.0, 0.0;
        var dx := -(pixdx * xwsize / width as real);
        var dy := -(pixdy * ywsize / height as real);
        Some(Frustum(left + dx, right + dx, bottom + dy, top + dy, ZNear, ZFar))
    }

    /** The two rotations that aim a camera along dir, after VTK's aim. */
    static function Aim(dir: Vec3, math: MathLib): (r: RotatePair)
      requires YzLen(dir, math) != 0.0
      ensures r.rot1.axis == XAxis && r.rot2.axis == YAxis
      ensures dir.y > 0.0 ==> r.rot1.angle == AimPitch(dir, math)
      ensures dir.y <= 0.0 ==> r.rot1.angle == -AimPitch(dir, math)
      ensures dir.x > 0.0 ==> r.rot2.angle == -AimYaw(dir, math)
      ensures dir.x <= 0.0 ==> r.rot2.angle == AimYaw(dir, math)
    {
      var xrot := AimPitch(dir, math);
      var yrot := AimYaw(dir, math);
      var rot1 := if dir.y > 0.0 then Rotation(xrot, XAxis) else Rotation(-xrot, XAxis);
      var rot2 := if dir.x > 0.0 then Rotation(-yrot, YAxis) else Rotation(yrot, YAxis);
      RotatePair(rot1, rot2)
    }

    method MousePressed(scratch: CameraScratch, ev: MouseEvent)
      modifies scratch
      ensures PerspectivePressed(this, scratch, ev)
    {
      scratch.pickX := ev.x;
      scratch.pickY := ev.y;
      if ev.button == LeftButton {
        scratch.moveType := Rotating;
      } else if ev.button == MiddleButton {
        scratch.moveType := Panning;
        scratch.origEye := Eye();
        scratch.origUp := UpDir();
        scratch.origLeft := LeftDir();
      } else if ev.button == RightButton {
        scratch.moveType := Trucking;
      } else {
        scratch.moveType := NotMoving;
      }
    }

    method MouseReleased(scratch: CameraScratch, ev: MouseEvent)
      modifies scratch`moveType
      ensures scratch.moveType == NotMoving
    {
      scratch.moveType := NotMoving;
    }

    method MouseDragged(scratch: CameraScratch, ev: MouseEvent)
      modifies this, scratch`pickX, scratch`pickY
      ensures PerspectiveDragged(this, scratch, ev)
    {
      var xDiff := scratch.pickX - ev.x;
      var yDiff := scratch.pickY - ev.y;
      if scratch.moveType == Rotating {
        var origLook := Add(Eye(), LookDir());
        yRot := yRot + xDiff as real * RotateScale;
        upRot := upRot + yDiff as real * -RotateScale;
        // move the eye so that it looks at the original focal point
        var lookAway := Scale(LookDir(), -1.0);
        center := Add(origLook, lookAway);
      } else if scratch.moveType == Panning {
        var mUp := Scale(scratch.origUp, -1.0 * yDiff as real * PanScale);
        var mLeft := Scale(scratch.origLeft, -1.0 * xDiff as real * PanScale);
        center := Add(Add(Eye(), mUp), mLeft);
      } else if scratch.moveType == Trucking {
        var l := Scale(LookDir(), -TruckScale * yDiff as real);
        center := Add(l, center);
      }
      scratch.pickX := ev.x;
      scratch.pickY := ev.y;
    }
  }

  /** Aiming straight up: the x-z projection is empty, so there is no yaw,
      and the pitch is a quarter turn upwards. */
  lemma AimStraightUp(math: MathLib)
    requires math.sqrt(0.0) == 0.0 && math.sqrt(1.0) == 1.0 && math.acos(0.0) == Pi / 2.0
    ensures YzLen(Vec3(0.0, 1.0, 0.0), math) != 0.0
    ensures PerspectiveCamera.Aim(Vec3(0.0, 1.0, 0.0), math)
            == RotatePair(Rotation(90.0, XAxis), Rotation(0.0, YAxis))
  {
  }

  /** Aiming straight down: the zero-length projection special case turns
      the camera half way round, and the pitch is a quarter turn downwards. */
  lemma AimStraightDown(math: MathLib)
    requires math.sqrt(0.0) == 0.0 && math.sqrt(1.0) == 1.0 && math.acos(0.0) == Pi / 2.0
    ensures YzLen(Vec3(0.0, -1.0, 0.0), math) != 0.0
    ensures PerspectiveCamera.Aim(Vec3(0.0, -1.0, 0.0), math)
            == RotatePair(Rotation(-90.0, XAxis), Rotation(180.0, YAxis))
  {
  }

  /** Aiming along +z needs no rotation at all. */
  lemma AimAlongZ(math: MathLib)
    requires math.sqrt(1.0) == 1.0 && math.acos(1.0) == 0.0
    ensures YzLen(Vec3(0.0, 0.0, 1.0), math) != 0.0
    ensures PerspectiveCamera.Aim(Vec3(0.0, 0.0, 1.0), math)
            == RotatePair(Rotation(0.0, XAxis), Rotation(0.0, YAxis))
  {
  }

  /** The effect of a perspective press: the pick position becomes the press
      position; left rotates, middle pans (snapshotting eye, up and left),
      right trucks, any other button stops moving. */
  twostate predicate PerspectivePressed(c: PerspectiveCamera, s: CameraScratch, ev: MouseEvent)
    reads c, s
  {
    && s.pickX == ev.x && s.pickY == ev.y
    && s.moveType == (if ev.button == LeftButton then Rotating
                      else if ev.button == MiddleButton then Panning
                      else if ev.button == RightButton then Trucking
                      else NotMoving)
    && (if ev.button == MiddleButton
        then s.origEye == c.Eye() && s.origUp == c.UpDir() && s.origLeft == c.LeftDir()
        else s.origEye == old(s.origEye) && s.origUp == old(s.origUp) && s.origLeft == old(s.origLeft))
    && s.viewWidth == old(s.viewWidth) && s.viewHeight == old(s.viewHeight)
  }

  /** The effect of a perspective drag to ev's position: the deltas are the
      previous sample minus the current one, the camera moves as the move
      type says, and the pick position always becomes the current one. */
  twostate predicate PerspectiveDragged(c: PerspectiveCamera, s: CameraScratch, ev: MouseEvent)
    reads c, s
  {
    var xDiff := old(s.pickX) - ev.x;
    var yDiff := old(s.pickY) - ev.y;
    && s.pickX == ev.x && s.pickY == ev.y
    && c.distance == old(c.distance) && c.fov == old(c.fov)
    && match old(s.moveType)
       case Rotating =>
         && c.Orient() == RotateStep(old(c.Orient()), xDiff, yDiff)
         && c.center == Add(old(Add(c.Eye(), c.LookDir())), Neg(c.LookDir()))
       case Panning =>
         && c.Orient() == old(c.Orient())
         && c.center == Add(Add(old(c.Eye()), Scale(s.origUp, -PanScale * yDiff as real)),
                            Scale(s.origLeft, -PanScale * xDiff as real))
       case Trucking =>
         && c.Orient() == old(c.Orient())
         && c.center == Add(old(c.center), Scale(c.LookDir(), -TruckScale * yDiff as real))
       case NotMoving =>
         c.Orient() == old(c.Orient()) && c.center == old(c.center)
  }

  /** The orthographic camera: a centre and a zoom (the half-height of the
      view, _fov in the source). Its orbit parameters come from the base
      class and are never changed by orthographic code. */
  class OrthographicCamera {
    const frame: OrbitFrame
    const distance: real
    const yRot: real
    const upRot: real
    var center: Vec3
    var fov: real

    /** The zoom never drops below its floor. */
    ghost predicate Valid()
      reads this
    {
      fov >= MinZoom
    }

    constructor (frame: OrbitFrame, distance: real, yRot: real, upRot: real)
      ensures Valid()
      ensures this.frame == frame && this.distance == distance && this.yRot == yRot && this.upRot == upRot
      ensures center == Vec3(0.5, 0.5, 1.0) && fov == 0.6
    {
      this.frame := frame;
      this.distance := distance;
      this.yRot := yRot;
      this.upRot := upRot;
      center := Vec3(0.5, 0.5, 1.0);
      fov := 0.6;
    }

    function Eye(): Vec3
      reads this
    {
      frame.eye(center, distance, yRot, upRot)
    }

    /** getViewMatrix: zoom and translation live in the projection. */
    function ViewMatrix(width: int, height: int): (v: ViewTransform)
      ensures v == Identity
    {
      Identity
    }

    /** The bounds of getProjMatrix. With a zero height the aspect ratio is
        not finite in the source; the model has no bounds then. */
    function ProjBounds(width: int, height: int): (r: Option<Frustum>)
      reads this
      ensures r.Some? <==> height != 0
      ensures r.Some? ==>
                var f := r.value;
                && (f.left + f.right) / 2.0 == center.x
                && (f.bottom + f.top) / 2.0 == center.y
                && f.right - f.left == 2.0 * fov * (width as real / height as real)
                && f.top - f.bottom == 2.0 * fov
                && f.near == -1.0 && f.far == 1.0
    {
      if height == 0 then None
      else
        var aspect := width as real / height as real;
        Some(Frustum(center.x + -fov * aspect, center.x + fov * aspect,
                     center.y - fov, center.y + fov, -1.0, 1.0))
    }

    method MousePressed(scratch: CameraScratch, ev: MouseEvent)
      modifies scratch
      ensures OrthographicPressed(this, scratch, ev)
    {
      scratch.pickX := ev.x;
      scratch.pickY := ev.y;
      if ev.button == MiddleButton {
        scratch.moveType := Panning;
        scratch.origEye := Eye();
      } else if ev.button == RightButton {
        scratch.moveType := Trucking;
      }
    }

    method MouseReleased(scratch: CameraScratch, ev: MouseEvent)
      modifies scratch`moveType
      ensures scratch.moveType == NotMoving
    {
      scratch.moveType := NotMoving;
    }

    method MouseDragged(scratch: CameraScratch, ev: MouseEvent)
      requires Valid()
      requires scratch.moveType == Panning ==> scratch.viewHeight != 0
      modifies this, scratch`pickX, scratch`pickY
      ensures Valid()
      ensures OrthographicDragged(this, scratch, ev)
    {
      var xDiff := scratch.pickX - ev.x;
      var yDiff := scratch.pickY - ev.y;
      if scratch.moveType == Panning {
        var pixelsToWorld := 2.0 * fov / scratch.viewHeight as real;
        var mUp := Scale(Vec3(1.0, 0.0, 0.0), xDiff as real * pixelsToWorld);
        var mLeft := Scale(Vec3(0.0, 1.0, 0.0), -1.0 * yDiff as real * pixelsToWorld);
        center := Add(Add(Eye(), mUp), mLeft);
      } else if scratch.moveType == Trucking {
        fov := TruckZoom(fov, yDiff);
      }
      scratch.pickX := ev.x;
      scratch.pickY := ev.y;
    }
  }

  /** The effect of an orthographic press: middle pans (snapshotting the
      eye), right trucks, and any other button leaves the move type as it was. */
  twostate predicate OrthographicPressed(c: OrthographicCamera, s: CameraScratch, ev: MouseEvent)
    reads c, s
  {
    && s.pickX == ev.x && s.pickY == ev.y
    && s.moveType == (if ev.button == MiddleButton then Panning
                      else if ev.button == RightButton then Trucking
                      else old(s.moveType))
    && s.origEye == (if ev.button == MiddleButton then c.Eye() else old(s.origEye))
    && s.origUp == old(s.origUp) && s.origLeft == old(s.origLeft)
    && s.viewWidth == old(s.viewWidth) && s.viewHeight == old(s.viewHeight)
  }

  /** The effect of an orthographic drag: panning moves the centre by the
      pixel deltas scaled to world units (2 * zoom / view height), trucking
      zooms, and the pick position always becomes the current one. */
  twostate predicate OrthographicDragged(c: OrthographicCamera, s: CameraScratch, ev: MouseEvent)
    reads c, s
  {
    var xDiff := old(s.pickX) - ev.x;
    var yDiff := old(s.pickY) - ev.y;
    && s.pickX == ev.x && s.pickY == ev.y
    && match old(s.moveType)
       case Panning =>
         && s.viewHeight != 0
         && c.fov == old(c.fov)
         && var pixelsToWorld := 2.0 * old(c.fov) / s.viewHeight as real;
            c.center == Add(old(c.Eye()), Vec3(xDiff as real * pixelsToWorld, -yDiff as real * pixelsToWorld, 0.0))
       case Trucking =>
         c.center == old(c.center) && c.fov == TruckZoom(old(c.fov), yDiff)
       case _ =>
         c.center == old(c.center) && c.fov == old(c.fov)
  }
}
