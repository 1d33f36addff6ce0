/**
 The unfinished C++ port (braingarden_test.cpp): angle conversions, the
 Movable base with its accessors, the launcher's constructor and launch
 point, the projectile's field test, the catcher's update and the Tracker
 that records the projectile's observed centroid.

 The C++ classes inherit from Movable; here each of them owns a Movable
 object, `body`, holding the inherited fields. OpenCV's image moments and
 rotated-rectangle corners are inputs.
 */
module CppPort {
  import opened Primitives
  import Bodies
  import Simulation

  // ------------------------------------------------------ angle conversion

  /** The value of pi that both conversions use. */
  const Pi: real := 3.14

  /** radians(): degrees to radians with pi taken as 3.14; degrees() undoes it. */
  function Radians(degrees: real): (r: real)
    ensures Degrees(r) == degrees
    ensures degrees > 0.0 <==> r > 0.0
  {
    Pi * degrees / 180.0
  }

  /** degrees(): radians to degrees with pi taken as 3.14; a half turn is 180 degrees. */
  function Degrees(radians: real): (d: real)
    ensures radians > 0.0 <==> d > 0.0
    ensures radians == Pi ==> d == 180.0
  {
    180.0 * radians / Pi
  }

  /** radians() undoes degrees(). */
  lemma RadiansOfDegrees(r: real)
    ensures Radians(Degrees(r)) == r
  {
  }

  // ---------------------------------------------------------------- Movable

  class Movable {
    var x: real
    var y: real
    var vx: real
    var vy: real
    var color: Color

    constructor (x0: real, y0: real, vx0: real, vy0: real, clr: Color)
      ensures x == x0 && y == y0 && vx == vx0 && vy == vy0 && color == clr
    {
      x, y, vx, vy := x0, y0, vx0, vy0;
      color := clr;
    }

    /** One unit-time Euler step; the velocities stay as they are. */
    method UpdatePosition()
      modifies this
      ensures x == old(x) + old(vx) && y == old(y) + old(vy)
      ensures vx == old(vx) && vy == old(vy) && color == old(color)
    {
      x := x + vx;
      y := y + vy;
    }

    function GetX(): real
      reads this
    {
      x
    }

    function GetY(): real
      reads this
    {
      y
    }

    method SetX(newX: real)
      modifies this`x
      ensures GetX() == newX && GetY() == old(GetY())
    {
      x := newX;
    }

    method SetY(newY: real)
      modifies this`y
      ensures GetY() == newY && GetX() == old(GetX())
    {
      y := newY;
    }
  }

  // ----------------------------------------------------------------- Canon

  class Canon {
    const body: Movable
    var angle: real
    var length: int
    var width: int

    /** The launcher starts at rest at (x0, y0), with the given angle and barrel size. */
    constructor (a: real, l: int, w: int, color: Color, x0: real, y0: real)
      ensures fresh(body)
      ensures body.x == x0 && body.y == y0 && body.vx == 0.0 && body.vy == 0.0 && body.color == color
      ensures angle == a && length == l && width == w
    {
      body := new Movable(x0, y0, 0.0, 0.0, color);
      angle := a;
      length := l;
      width := w;
    }
  }

  /**
   launch_point: the midpoint of the third and fourth corners of the
   launcher's box (the corners themselves come from OpenCV and are inputs).
   It is as far from the third corner as the fourth is from it.
   */
  function LaunchPoint(corners: Quad): (p: Point)
    ensures p.Minus(corners.p3) == corners.p4.Minus(p)
    ensures corners.p3 == corners.p4 ==> p == corners.p3
  {
    Mid(corners.p3, corners.p4)
  }

  // ---------------------------------------------------------------- Circle

  /** The closed rectangle [0, width] x [0, height]. */
  predicate InField(p: Point, width: int, height: int) {
    0.0 <= p.x <= width as real && 0.0 <= p.y <= height as real
  }

  /**
   out_of_scene for a centre p: strictly beyond one of the four edges. The
   edges themselves belong to the field.
   */
  function OutsideField(p: Point, width: int, height: int): (out: bool)
    ensures out <==> !InField(p, width, height)
  {
    (p.x > width as real || p.x < 0.0) || (p.y > height as real || p.y < 0.0)
  }

  /**
   The Python loop relaunches only past the right or the bottom edge, a
   stricter test than out_of_scene: whatever it relaunches is out of the
   scene, but a projectile just past the left edge is out of the scene and
   not relaunched in that frame (whether it is later depends on gravity:
   see Simulation.FallsPastBottom and Simulation.NoPullNoRelaunch).
   */
  lemma RelaunchIsOutOfScene(c: Bodies.CircleState, width: int, height: int)
    ensures Simulation.Relaunches(c, height, width) ==> OutsideField(c.pos, width, height)
    ensures 0 <= width && c.pos.x < 0.0 && c.pos.y <= height as real ==>
      OutsideField(c.pos, width, height) && !Simulation.Relaunches(c, height, width)
  {
  }

  class Circle {
    const body: Movable
    var radius: real

    constructor (r: real, color: Color, x0: real, y0: real, vx0: real, vy0: real)
      ensures fresh(body) && radius == r
      ensures body.x == x0 && body.y == y0 && body.vx == vx0 && body.vy == vy0 && body.color == color
    {
      body := new Movable(x0, y0, vx0, vy0, color);
      radius := r;
    }

    /** out_of_scene, for a scene of the given size. */
    predicate OutOfScene(width: int, height: int)
      reads this, body
    {
      OutsideField(Point(body.x, body.y), width, height)
    }
  }

  // --------------------------------------------------------------- Tracker

  /** The image moments Tracker.extract_coords reads: area and first moments. */
  datatype Moments = Moments(m00: real, m10: real, m01: real)

  /** cv::Point: integer pixel coordinates. */
  datatype Pixel = Pixel(x: int, y: int)

  /** C++'s integer a / 3, which rounds toward zero. */
  function Third(a: int): (q: int)
    ensures 0 <= a ==> 0 <= 3 * q <= a < 3 * q + 3
    ensures a < 0 ==> 3 * q - 3 < a <= 3 * q <= 0
  {
    if a >= 0 then a / 3 else -((-a) / 3)
  }

  /**
   The observation extract_coords records for the moments of the middle
   third of the frame: nothing when the region is empty, otherwise the
   centroid shifted right by a third of the scene width, each coordinate
   truncated to an integer and so within one pixel of the exact value.
   */
  function Observation(m: Moments, sceneWidth: int): (r: Option<Pixel>)
    ensures r.Some? <==> m.m00 != 0.0
    ensures r.Some? ==>
      Near(Point(r.value.x as real, r.value.y as real),
           Point(m.m10 / m.m00 + Third(sceneWidth) as real, m.m01 / m.m00))
  {
    if m.m00 != 0.0 then
      Some(Pixel(Trunc(m.m10 / m.m00 + Third(sceneWidth) as real), Trunc(m.m01 / m.m00)))
    else
      None
  }

  class Tracker {
    const sceneWidth: int
    var coords: seq<Pixel>

    constructor (sceneWidth: int)
      ensures this.sceneWidth == sceneWidth && coords == []
    {
      this.sceneWidth := sceneWidth;
      coords := [];
    }

    /**
     extract_coords: appends exactly one observation when the moments show
     a non-empty region and leaves the recorded ones as they were.
     */
    method ExtractCoords(m: Moments)
      modifies this`coords
      ensures m.m00 == 0.0 ==> coords == old(coords)
      ensures m.m00 != 0.0 ==>
        |coords| == |old(coords)| + 1 && coords[..|old(coords)|] == old(coords) &&
        coords[|old(coords)|] == Observation(m, sceneWidth).value
    {
      var obs := Observation(m, sceneWidth);
      if obs.Some? {
        coords := coords + [obs.value];
      }
    }
  }

  // ----------------------------------------------------------------- Plane

  class Plane {
    const body: Movable
    var length: int
    var width: int
    const tracker: Tracker

    /** The catcher starts with no horizontal velocity and an empty observation record. */
    constructor (l: int, w: int, clr: Color, x0: real, y0: real, vy0: real, sceneWidth: int)
      ensures fresh(body) && fresh(tracker)
      ensures body.x == x0 && body.y == y0 && body.vx == 0.0 && body.vy == vy0 && body.color == clr
      ensures length == l && width == w
      ensures tracker.sceneWidth == sceneWidth && tracker.coords == []
    {
      body := new Movable(x0, y0, 0.0, vy0, clr);
      length := l;
      width := w;
      tracker := new Tracker(sceneWidth);
    }

    /**
     update_position: the catcher does not move; it only records the
     observation taken from the moments of the scene's middle third.
     */
    method UpdatePosition(m: Moments)
      modifies tracker`coords
      ensures unchanged(body)
      ensures tracker.coords ==
        old(tracker.coords) + (match Observation(m, tracker.sceneWidth) case Some(p) => [p] case None => [])
    {
      tracker.ExtractCoords(m);
    }
  }
}
