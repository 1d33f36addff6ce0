/**
 The Python scene (main.py, class Scene): a launcher, a catcher and one live
 projectile, advanced one frame per keyboard poll until Escape is pressed.

 World is the state the frame rules read and write; Frame is one pass of the
 loop body of Scene.run and Session the whole loop over a finite sequence of
 polls. The class Scene performs the same steps on the body objects in place
 and is proved to follow Session.
 */
module Simulation {
  import opened Primitives
  import opened Bodies

  /** Key code that ends Scene.run. */
  const Escape := 27

  datatype World = World(circle: CircleState, plane: PlaneState, canon: CanonState, vg: real, height: int, width: int)

  /**
   What one cv2.waitKey poll delivers: the key code, and the angle that the
   trackbar callback stored with set_angle while it waited, if any.
   */
  datatype Poll = Poll(key: int, angle: Option<Angle>)

  /** One frame's new state and whether the catch test reported success. */
  datatype FrameResult = FrameResult(world: World, caught: bool)

  /** The state after a sequence of polls and one catch report per frame run. */
  datatype Outcome = Outcome(world: World, reports: seq<bool>)

  /** The projectile's part of a frame: update_position, then vy += vg. */
  function Fall(c: CircleState, vg: real): (r: CircleState)
    ensures r.pos == c.pos.Plus(c.vel)
    ensures r.vel.x == c.vel.x && r.vel.y == c.vel.y + vg
    ensures r.radius == c.radius && r.color == c.color
  {
    var m := c.Moved();
    m.(vel := Point(m.vel.x, m.vel.y + vg))
  }

  /** k frames of flight without relaunch. */
  function Flight(c: CircleState, vg: real, k: nat): CircleState
    decreases k
  {
    if k == 0 then c else Fall(Flight(c, vg, k - 1), vg)
  }

  /** 0 + 1 + ... + (k - 1): how many units of gravity k frames of flight add up. */
  function Triangle(k: nat): nat {
    if k == 0 then 0 else Triangle(k - 1) + (k - 1)
  }

  lemma {:induction false} TriangleClosedForm(k: nat)
    ensures 2 * Triangle(k) == k * (k - 1)
  {
    if k > 0 {
      TriangleClosedForm(k - 1);
      assert k * (k - 1) == (k - 1) * (k - 2) + 2 * (k - 1);
    }
  }

  /**
   In flight the projectile follows a discrete parabola: after k frames it has
   moved k·vx across and k·vy + vg·k(k-1)/2 down (Triangle(k) = k(k-1)/2), its
   horizontal velocity is unchanged and its vertical velocity has grown by k·vg.
   */
  lemma {:induction false} FlightIsParabola(c: CircleState, vg: real, k: nat)
    ensures Flight(c, vg, k).pos.x == c.pos.x + k as real * c.vel.x
    ensures Flight(c, vg, k).pos.y == c.pos.y + k as real * c.vel.y + vg * Triangle(k) as real
    ensures Flight(c, vg, k).vel == Point(c.vel.x, c.vel.y + k as real * vg)
    ensures Flight(c, vg, k).radius == c.radius && Flight(c, vg, k).color == c.color
  {
    if k > 0 {
      FlightIsParabola(c, vg, k - 1);
      var prev := Flight(c, vg, k - 1);
      assert Flight(c, vg, k) == Fall(prev, vg);
      assert k as real == (k - 1) as real + 1.0;
      assert Triangle(k) as real == Triangle(k - 1) as real + (k - 1) as real;
      OneMoreFrame(c.pos.x, c.vel.x, c.pos.y, c.vel.y, vg, (k - 1) as real, Triangle(k - 1) as real);
    }
  }

  /** The arithmetic of one more frame of flight after j frames, t units of gravity in. */
  lemma OneMoreFrame(x: real, vx: real, y: real, vy: real, vg: real, j: real, t: real)
    ensures (x + j * vx) + vx == x + (j + 1.0) * vx
    ensures (y + j * vy + vg * t) + (vy + j * vg) == y + (j + 1.0) * vy + vg * (t + j)
    ensures (vy + j * vg) + vg == vy + (j + 1.0) * vg
  {
  }

  /** The relaunch test of Scene.run: strictly past the right or the bottom edge. */
  predicate Relaunches(c: CircleState, height: int, width: int) {
    c.pos.x > width as real || c.pos.y > height as real
  }

  /** A number of frames after which steps of the given positive size add up to more than d. */
  function FramesToExceed(d: real, step: real): (m: nat)
    requires step > 0.0
    ensures m as real * step > d
  {
    if d < 0.0 then 0
    else
      var m := (d / step).Floor + 1;
      assert m as real > d / step;
      assert (d / step) * step == d;
      m
  }

  /**
   With gravity pulling down (vg > 0) every flight ends in a relaunch,
   whichever edge it leaves by: after enough frames the projectile is past
   the bottom edge.
   */
  lemma FallsPastBottom(c: CircleState, vg: real, height: int, width: int)
    requires vg > 0.0
    ensures exists k: nat :: Flight(c, vg, k).pos.y > height as real
    ensures exists k: nat :: Relaunches(Flight(c, vg, k), height, width)
  {
    var d := if height as real - c.pos.y > 0.0 then height as real - c.pos.y else 0.0;
    var m := FramesToExceed(2.0 * (1.0 + d - c.vel.y), vg);
    var k: nat := m + 1;
    var y := Flight(c, vg, k).pos.y;
    assert y == c.pos.y + k as real * c.vel.y + vg * Triangle(k) as real by {
      FlightIsParabola(c, vg, k);
    }
    assert 2.0 * Triangle(k) as real == k as real * m as real by {
      TriangleClosedForm(k);
    }
    DepthGained(c.pos.y, c.vel.y, vg, k as real, m as real, Triangle(k) as real, d);
    assert Relaunches(Flight(c, vg, k), height, width);
  }

  /**
   The arithmetic of FallsPastBottom: k = m + 1 frames with 2t = k·m units of
   gravity, where m·vg > 2(1 + d - vy), take the projectile more than d down.
   */
  lemma DepthGained(y: real, vy: real, vg: real, k: real, m: real, t: real, d: real)
    requires vg > 0.0 && m >= 0.0 && k == m + 1.0 && 2.0 * t == k * m
    requires m * vg > 2.0 * (1.0 + d - vy) && d >= 0.0
    ensures y + k * vy + vg * t > y + d
  {
  }

  /**
   Without a downward pull (vg <= 0), a projectile inside the right and
   bottom edges and moving neither right nor down is never relaunched:
   one that leaves by the left or the top edge then flies on for ever.
   */
  lemma NoPullNoRelaunch(c: CircleState, vg: real, height: int, width: int, k: nat)
    requires vg <= 0.0 && c.vel.x <= 0.0 && c.vel.y <= 0.0
    requires c.pos.x <= width as real && c.pos.y <= height as real
    ensures !Relaunches(Flight(c, vg, k), height, width)
  {
    var f := Flight(c, vg, k);
    assert f.pos.x == c.pos.x + k as real * c.vel.x &&
           f.pos.y == c.pos.y + k as real * c.vel.y + vg * Triangle(k) as real by {
      FlightIsParabola(c, vg, k);
    }
    NoGain(k as real, c.vel.x, c.vel.y, vg, Triangle(k) as real);
  }

  /** The arithmetic of NoPullNoRelaunch: no frame count gains ground right or down. */
  lemma NoGain(k: real, vx: real, vy: real, vg: real, t: real)
    requires k >= 0.0 && t >= 0.0 && vx <= 0.0 && vy <= 0.0 && vg <= 0.0
    ensures k * vx <= 0.0 && k * vy + vg * t <= 0.0
  {
  }

  /**
   One pass of the loop body of Scene.run: move the projectile and the
   catcher, add gravity to the projectile, test the catch (a report only),
   and replace the projectile by a fresh shot when it is past the right or
   bottom edge. The launcher and the configuration do not change.
   */
  function Frame(w: World): (t: FrameResult)
    ensures t.world.canon == w.canon && t.world.vg == w.vg
    ensures t.world.height == w.height && t.world.width == w.width
    ensures t.world.plane == w.plane.Moved()
    ensures t.world.circle ==
      if Relaunches(Flight(w.circle, w.vg, 1), w.height, w.width) then Projectile(w.canon)
      else Flight(w.circle, w.vg, 1)
    ensures t.caught == CircleCatched(w.plane.Moved(), Flight(w.circle, w.vg, 1))
  {
    var c := Fall(w.circle, w.vg);
    var p := w.plane.Moved();
    var caught := CircleCatched(p, c);
    var next := if Relaunches(c, w.height, w.width) then Projectile(w.canon) else c;
    FrameResult(w.(circle := next, plane := p), caught)
  }

  /** A catch report does not end the flight: a caught projectile still inside flies on. */
  lemma CatchDoesNotRelaunch(w: World)
    requires Frame(w).caught
    requires !Relaunches(Flight(w.circle, w.vg, 1), w.height, w.width)
    ensures Frame(w).world.circle == Flight(w.circle, w.vg, 1)
  {
  }

  /** The trackbar's set_angle, when the poll carries one. */
  function Steer(w: World, angle: Option<Angle>): (r: World)
    ensures angle.Some? ==> r.canon.angle == angle.value
    ensures angle.None? ==> r == w
    ensures r.canon.(angle := w.canon.angle) == w.canon
    ensures r.(canon := w.canon) == w
  {
    match angle
    case None => w
    case Some(a) => w.(canon := w.canon.(angle := a))
  }

  /** Number of frames run for the given polls: the polls before the first Escape. */
  function FramesRun(polls: seq<Poll>): (n: nat)
    ensures n <= |polls|
    ensures forall i :: 0 <= i < n ==> polls[i].key != Escape
    ensures n < |polls| ==> polls[n].key == Escape
  {
    if polls == [] || polls[0].key == Escape then 0 else 1 + FramesRun(polls[1..])
  }

  /** Scene.run over a finite sequence of polls. */
  function Session(w: World, polls: seq<Poll>): Outcome
    decreases |polls|
  {
    if polls == [] then Outcome(w, [])
    else
      var w1 := Steer(w, polls[0].angle);
      if polls[0].key == Escape then Outcome(w1, [])
      else
        var t := Frame(w1);
        var rest := Session(t.world, polls[1..]);
        Outcome(rest.world, [t.caught] + rest.reports)
  }

  /** One catch report per frame, and frames run exactly until the first Escape. */
  lemma {:induction false} SessionReportsEachFrame(w: World, polls: seq<Poll>)
    ensures |Session(w, polls).reports| == FramesRun(polls)
    decreases |polls|
  {
    if polls != [] && polls[0].key != Escape {
      SessionReportsEachFrame(Frame(Steer(w, polls[0].angle)).world, polls[1..]);
    }
  }

  /**
   The launcher never moves: only its angle may change (through the
   trackbar), and the gravity and field size stay as configured.
   */
  lemma {:induction false} SessionKeepsLauncher(w: World, polls: seq<Poll>)
    ensures Session(w, polls).world.canon.(angle := w.canon.angle) == w.canon
    ensures Session(w, polls).world.vg == w.vg
    ensures Session(w, polls).world.height == w.height && Session(w, polls).world.width == w.width
    decreases |polls|
  {
    if polls != [] && polls[0].key != Escape {
      SessionKeepsLauncher(Frame(Steer(w, polls[0].angle)).world, polls[1..]);
    }
  }

  /**
   Scene.run's loop bookkeeping for a poll that is not Escape: if the reports
   so far followed by Session from world w over polls[i..] make up the whole
   session from w0, so do the reports with this frame's one added, followed by
   Session from the frame's world over polls[i + 1..].
   */
  lemma SessionContinues(w0: World, polls: seq<Poll>, i: nat, w: World, reports: seq<bool>)
    requires i < |polls| && polls[i].key != Escape
    requires Session(w, polls[i..]).world == Session(w0, polls).world
    requires reports + Session(w, polls[i..]).reports == Session(w0, polls).reports
    ensures var t := Frame(Steer(w, polls[i].angle));
      Session(t.world, polls[i + 1..]).world == Session(w0, polls).world &&
      (reports + [t.caught]) + Session(t.world, polls[i + 1..]).reports == Session(w0, polls).reports
  {
  }

  /** Scene.run's loop bookkeeping for Escape: the session ends with the steered world. */
  lemma SessionStops(w0: World, polls: seq<Poll>, i: nat, w: World, reports: seq<bool>)
    requires i < |polls| && polls[i].key == Escape
    requires Session(w, polls[i..]).world == Session(w0, polls).world
    requires reports + Session(w, polls[i..]).reports == Session(w0, polls).reports
    ensures Steer(w, polls[i].angle) == Session(w0, polls).world
    ensures reports == Session(w0, polls).reports
  {
  }

  /** The catcher after n frames. */
  function Drift(p: PlaneState, n: nat): PlaneState
    decreases n
  {
    if n == 0 then p else Drift(p.Moved(), n - 1)
  }

  /** After n frames the catcher has kept its x and moved n·vy vertically. */
  lemma {:induction false} DriftIsVertical(p: PlaneState, n: nat)
    ensures Drift(p, n) == p.(pos := Point(p.pos.x, p.pos.y + n as real * p.vy))
    decreases n
  {
    if n > 0 {
      DriftIsVertical(p.Moved(), n - 1);
      assert p.pos.y + p.vy + (n - 1) as real * p.vy == p.pos.y + n as real * p.vy;
    }
  }

  /** Over a session the catcher takes exactly one step per frame run. */
  lemma {:induction false} SessionMovesCatcher(w: World, polls: seq<Poll>)
    ensures Session(w, polls).world.plane == Drift(w.plane, |Session(w, polls).reports|)
    decreases |polls|
  {
    if polls != [] && polls[0].key != Escape {
      var w1 := Steer(w, polls[0].angle);
      SessionMovesCatcher(Frame(w1).world, polls[1..]);
    }
  }

  /** The live projectile has the radius and colour of a shot from the scene's launcher. */
  predicate FiredBy(c: CircleState, canon: CanonState) {
    c.radius == Trunc(canon.width / 2.0) && c.color == canon.circleColor
  }

  /** Every frame and every angle change keeps the live projectile one fired by the launcher. */
  lemma {:induction false} SessionKeepsProjectileFired(w: World, polls: seq<Poll>)
    requires FiredBy(w.circle, w.canon)
    ensures FiredBy(Session(w, polls).world.circle, Session(w, polls).world.canon)
    decreases |polls|
  {
    if polls != [] && polls[0].key != Escape {
      var w1 := Frame(Steer(w, polls[0].angle)).world;
      FlightIsParabola(w.circle, w.vg, 1);
      SessionKeepsProjectileFired(w1, polls[1..]);
    }
  }

  /** The state Scene.__init__ builds: the first projectile is the launcher's first shot. */
  function Start(canon: CanonState, plane: PlaneState, vg: real, height: int, width: int): (w: World)
    ensures w.canon == canon && w.plane == plane && w.vg == vg
    ensures w.height == height && w.width == width
    ensures FiredBy(w.circle, w.canon)
    ensures Near(w.circle.pos, Muzzle(canon))
    ensures w.circle.vel == canon.angle.Along().Scaled(canon.launchSpeed)
  {
    World(Projectile(canon), plane, canon, vg, height, width)
  }

  class Scene {
    const canon: Canon
    const plane: Plane
    var circle: Circle
    const vg: real
    const height: int
    const width: int

    function Snapshot(): World
      reads this, circle, plane, canon
    {
      World(circle.State(), plane.State(), canon.State(), vg, height, width)
    }

    constructor (height: int, width: int, canon: Canon, plane: Plane, vg: real)
      ensures this.canon == canon && this.plane == plane && fresh(circle)
      ensures Snapshot() == Start(canon.State(), plane.State(), vg, height, width)
    {
      var first := canon.Shoot();
      this.canon := canon;
      this.plane := plane;
      this.vg := vg;
      this.height := height;
      this.width := width;
      circle := first;
    }

    /** Scene.update: the projectile and the catcher each take one step. */
    method Update()
      modifies circle, plane
      ensures circle.State() == old(circle.State()).Moved()
      ensures plane.State() == old(plane.State()).Moved()
    {
      circle.UpdatePosition();
      plane.UpdatePosition();
    }

    /**
     One pass of the loop body of Scene.run once the poll has returned:
     update, gravity, catch test, relaunch.
     */
    method Tick() returns (caught: bool)
      modifies this, circle, plane
      ensures circle == old(circle) || fresh(circle)
      ensures Snapshot() == Frame(old(Snapshot())).world
      ensures caught == Frame(old(Snapshot())).caught
    {
      ghost var before := Snapshot();
      Update();
      circle.vy := circle.vy + vg;
      assert circle.State() == Flight(before.circle, vg, 1);
      caught := CircleCatched(plane.State(), circle.State());
      if Relaunches(circle.State(), height, width) {
        circle := canon.Shoot();
      }
    }

    /**
     One iteration of the loop of Scene.run for the poll p: the trackbar's
     angle is stored, then Escape stops the loop, and any other key runs a frame.
     */
    method Step(p: Poll) returns (stop: bool, caught: bool)
      modifies this, circle, plane, canon
      ensures circle == old(circle) || fresh(circle)
      ensures stop <==> p.key == Escape
      ensures stop ==> Snapshot() == Steer(old(Snapshot()), p.angle)
      ensures !stop ==> Snapshot() == Frame(Steer(old(Snapshot()), p.angle)).world
      ensures !stop ==> caught == Frame(Steer(old(Snapshot()), p.angle)).caught
    {
      if p.angle.Some? {
        canon.SetAngle(p.angle.value);
      }
      stop := p.key == Escape;
      caught := false;
      if !stop {
        caught := Tick();
      }
    }

    /** Scene.run, with the polls of cv2.waitKey given as input; returns the catch reports. */
    method Run(polls: seq<Poll>) returns (reports: seq<bool>)
      modifies this, circle, plane, canon
      ensures Snapshot() == Session(old(Snapshot()), polls).world
      ensures reports == Session(old(Snapshot()), polls).reports
    {
      reports := [];
      var i := 0;
      while i < |polls|
        invariant 0 <= i <= |polls|
        invariant circle == old(circle) || fresh(circle)
        invariant Session(Snapshot(), polls[i..]).world == Session(old(Snapshot()), polls).world
        invariant reports + Session(Snapshot(), polls[i..]).reports == Session(old(Snapshot()), polls).reports
      {
        ghost var w := Snapshot();
        var stop, caught := Step(polls[i]);
        if stop {
          SessionStops(old(Snapshot()), polls, i, w, reports);
          return;
        }
        SessionContinues(old(Snapshot()), polls, i, w, reports);
        reports := reports + [caught];
        i := i + 1;
      }
    }
  }
}
