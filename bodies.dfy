/**
 The kinematic bodies of the Python simulation (main.py): the projectile
 (Circle), the catcher (Plane) and the launcher (Canon).

 Each body is given twice: as a value (CircleState, PlaneState, CanonState)
 with pure functions for what the source computes, and as a class whose
 methods change its fields in place the way the source's methods do; every
 class method is specified by the pure function on the value it reads.
 */
module Bodies {
  import opened Primitives

  // ---------------------------------------------------------------- Circle

  datatype CircleState = CircleState(pos: Point, vel: Point, radius: int, color: Color) {

    /** update_position inherited from Movable: one unit-time Euler step, position += velocity. */
    function Moved(): (c: CircleState)
      ensures c.pos.x == pos.x + vel.x && c.pos.y == pos.y + vel.y
      ensures c.(pos := pos) == this
    {
      this.(pos := pos.Plus(vel))
    }

    /** x of the circle's right-most point, the one the catch test compares. */
    function LeadingEdge(): real {
      pos.x + radius as real
    }
  }

  class Circle {
    var x: real
    var y: real
    var vx: real
    var vy: real
    var radius: int
    var color: Color

    function State(): CircleState
      reads this
    {
      CircleState(Point(x, y), Point(vx, vy), radius, color)
    }

    constructor (radius: int, color: Color, x0: real, y0: real, vx0: real, vy0: real)
      ensures State() == CircleState(Point(x0, y0), Point(vx0, vy0), radius, color)
    {
      this.radius := radius;
      this.color := color;
      x, y, vx, vy := x0, y0, vx0, vy0;
    }

    method UpdatePosition()
      modifies this
      ensures x == old(x) + old(vx) && y == old(y) + old(vy)
      ensures State() == old(State()).Moved()
    {
      x := x + vx;
      y := y + vy;
    }
  }

  // ----------------------------------------------------------------- Plane

  /**
   The catcher. Its horizontal velocity is a read-only zero (the source's vx
   property ignores assignment), so the state keeps only the vertical one.
   */
  datatype PlaneState = PlaneState(pos: Point, vy: real, length: real, width: real, color: Color) {

    function Vel(): Point {
      Point(0.0, vy)
    }

    /** update_position inherited from Movable, reading vx as 0. */
    function Moved(): (p: PlaneState)
      ensures p.pos.x == pos.x
      ensures p.pos.y == pos.y + vy
      ensures p.(pos := pos) == this
    {
      this.(pos := pos.Plus(Vel()))
    }
  }

  /**
   circle_catched: the circle's leading edge has reached the plane's x and
   its centre lies in the band from length above the plane's y down to y,
   both ends included.
   */
  predicate CircleCatched(p: PlaneState, c: CircleState) {
    c.LeadingEdge() >= p.pos.x && p.pos.y - p.length <= c.pos.y <= p.pos.y
  }

  /** Equality on every one of the three comparisons still counts as a catch. */
  lemma CatchIsInclusive(p: PlaneState, c: CircleState)
    requires p.length >= 0.0
    requires c.LeadingEdge() == p.pos.x
    requires c.pos.y == p.pos.y || c.pos.y == p.pos.y - p.length
    ensures CircleCatched(p, c)
  {
  }

  /**
   The catch band [y - length, y] and the rectangle Plane.draw fills,
   [y, y + length], share only the line y: a circle whose centre is inside
   the drawn plane is caught only on that line.
   */
  lemma CatchBandAboveDrawnPlane(p: PlaneState, c: CircleState)
    requires CircleCatched(p, c)
    requires p.pos.y <= c.pos.y <= p.pos.y + p.length
    ensures c.pos.y == p.pos.y
  {
  }

  /** The x test has no upper bound: a caught circle stays caught further right. */
  lemma CatchHoldsFurtherRight(p: PlaneState, c: CircleState, dx: real)
    requires CircleCatched(p, c) && dx >= 0.0
    ensures CircleCatched(p, c.(pos := Point(c.pos.x + dx, c.pos.y)))
  {
  }

  class Plane {
    var x: real
    var y: real
    var vy: real
    var length: real
    var width: real
    var color: Color

    function State(): PlaneState
      reads this
    {
      PlaneState(Point(x, y), vy, length, width, color)
    }

    constructor (length: real, width: real, color: Color, x0: real, y0: real, vy0: real)
      ensures State() == PlaneState(Point(x0, y0), vy0, length, width, color)
      ensures Vx() == 0.0
    {
      this.length := length;
      this.width := width;
      this.color := color;
      x, y, vy := x0, y0, vy0;
    }

    /** The vx property: always zero. */
    function Vx(): real {
      0.0
    }

    /** The vx setter: the value is discarded. */
    method SetVx(v: real)
      ensures Vx() == 0.0
    {
    }

    method UpdatePosition()
      modifies this
      ensures x == old(x) && y == old(y) + old(vy)
      ensures State() == old(State()).Moved()
    {
      x := x + Vx();
      y := y + vy;
    }
  }

  // ----------------------------------------------------------------- Canon

  /** The launcher: pose (lower-left corner), direction, barrel size, muzzle speed. */
  datatype CanonState = CanonState(
    pos: Point, angle: Angle, length: real, width: real,
    launchSpeed: real, color: Color, circleColor: Color)
  {
    function Vel(): Point {
      Point(0.0, 0.0)
    }

    /** update_position inherited from Movable, reading both vx and vy as 0. */
    function Moved(): (c: CanonState)
      ensures c == this
    {
      this.(pos := pos.Plus(Vel()))
    }
  }

  /**
   The barrel outline before numpy truncates it to integers: width across
   the direction from the pose, length along it. Opposite sides are equal
   vectors, so it is a parallelogram.
   */
  function ExactBox(c: CanonState): (b: Quad)
    ensures b.p1 == c.pos
    ensures b.p3.Minus(b.p2) == b.p4.Minus(b.p1)
    ensures b.p2.Minus(b.p1) == b.p3.Minus(b.p4)
  {
    var along := c.angle.Along().Scaled(c.length);
    var across := c.angle.Across().Scaled(c.width);
    var p2 := c.pos.Plus(across);
    Quad(c.pos, p2, p2.Plus(along), c.pos.Plus(along))
  }

  /**
   The barrel outline is a rectangle: its sides at p1 are perpendicular, and
   when the sine and cosine lie on the unit circle they measure the barrel's
   width and length.
   */
  lemma ExactBoxIsRectangle(c: CanonState)
    ensures ExactBox(c).p2.Minus(ExactBox(c).p1).Dot(ExactBox(c).p4.Minus(ExactBox(c).p1)) == 0.0
    ensures c.angle.OnUnitCircle() ==>
      ExactBox(c).p2.Minus(ExactBox(c).p1).NormSquared() == c.width * c.width &&
      ExactBox(c).p4.Minus(ExactBox(c).p1).NormSquared() == c.length * c.length
  {
  }

  /** The box property: the barrel outline with every coordinate truncated toward zero. */
  function Box(c: CanonState): (b: Quad)
    ensures Near(b.p1, ExactBox(c).p1) && Near(b.p2, ExactBox(c).p2)
    ensures Near(b.p3, ExactBox(c).p3) && Near(b.p4, ExactBox(c).p4)
  {
    var e := ExactBox(c);
    Quad(TruncPoint(e.p1), TruncPoint(e.p2), TruncPoint(e.p3), TruncPoint(e.p4))
  }

  /** Centre of the far edge p3-p4 of the exact barrel outline. */
  function Muzzle(c: CanonState): Point {
    Mid(ExactBox(c).p3, ExactBox(c).p4)
  }

  /** The muzzle lies on the barrel's axis: a length along the direction and half the width across it from the pose. */
  lemma MuzzleOnBarrelAxis(c: CanonState)
    ensures Muzzle(c) == c.pos.Plus(c.angle.Along().Scaled(c.length)).Plus(c.angle.Across().Scaled(c.width / 2.0))
  {
  }

  /**
   shoot: a new circle with radius int(width / 2), in the projectile colour;
   where it appears and how it moves are stated by ProjectileAtMuzzle and
   ProjectileSpeed. The launcher is not changed (this is a function of its
   state).
   */
  function Projectile(c: CanonState): (r: CircleState)
    ensures c.width >= 0.0 ==> 0 <= r.radius && 2.0 * r.radius as real <= c.width < 2.0 * r.radius as real + 2.0
    ensures r.color == c.circleColor
  {
    var b := Box(c);
    CircleState(Mid(b.p3, b.p4), c.angle.Along().Scaled(c.launchSpeed), Trunc(c.width / 2.0), c.circleColor)
  }

  /**
   The projectile appears halfway between the truncated corners p3 and p4,
   hence within one unit of the muzzle in each coordinate.
   */
  lemma ProjectileAtMuzzle(c: CanonState)
    ensures Projectile(c).pos == Mid(Box(c).p3, Box(c).p4)
    ensures Near(Projectile(c).pos, Muzzle(c))
  {
  }

  /**
   The projectile moves along the barrel: its velocity is the launch speed
   times (cos, sin), so on the unit circle its speed is the launch speed.
   */
  lemma ProjectileSpeed(c: CanonState)
    ensures Projectile(c).vel == c.angle.Along().Scaled(c.launchSpeed)
    ensures c.angle.OnUnitCircle() ==> Projectile(c).vel.NormSquared() == c.launchSpeed * c.launchSpeed
  {
  }

  class Canon {
    var x: real
    var y: real
    var angle: Angle
    var length: real
    var width: real
    var launchSpeed: real
    var color: Color
    var circleColor: Color

    function State(): CanonState
      reads this
    {
      CanonState(Point(x, y), angle, length, width, launchSpeed, color, circleColor)
    }

    constructor (angle: Angle, length: real, width: real, color: Color, launchSpeed: real, x0: real, y0: real)
      ensures State() == CanonState(Point(x0, y0), angle, length, width, launchSpeed, color, Color(0, 0, 255))
      ensures Vx() == 0.0 && Vy() == 0.0
    {
      this.angle := angle;
      this.length := length;
      this.width := width;
      this.launchSpeed := launchSpeed;
      this.color := color;
      circleColor := Color(0, 0, 255);
      x, y := x0, y0;
    }

    /** The vx property: always zero. */
    function Vx(): real {
      0.0
    }

    /** The vy property: always zero. */
    function Vy(): real {
      0.0
    }

    /** The vx setter: the value is discarded. */
    method SetVx(v: real)
      ensures Vx() == 0.0
    {
    }

    /** The vy setter: the value is discarded. */
    method SetVy(v: real)
      ensures Vy() == 0.0
    {
    }

    /** Both velocities read zero, so the launcher never moves. */
    method UpdatePosition()
      modifies this
      ensures x == old(x) && y == old(y)
      ensures State() == old(State()) == old(State()).Moved()
    {
      x := x + Vx();
      y := y + Vy();
    }

    /** set_angle: the angle is stored as given, without clamping. */
    method SetAngle(a: Angle)
      modifies this
      ensures State() == old(State()).(angle := a)
    {
      angle := a;
    }

    method Shoot() returns (circle: Circle)
      ensures fresh(circle)
      ensures circle.State() == Projectile(State())
    {
      var s := Projectile(State());
      circle := new Circle(s.radius, s.color, s.pos.x, s.pos.y, s.vel.x, s.vel.y);
    }
  }
}
