# Projectile and catcher simulation, modelled in Dafny

A launcher (Canon) fires a round projectile (Circle) across a rectangular
field. A catcher (Plane) stands near the right edge. Every frame the scene
moves the bodies one unit-time Euler step and adds gravity to the
projectile's vertical velocity. It then reports a catch when the projectile
reaches the catcher. When the projectile is past the right or the bottom
edge, the scene fires a new one. The system exists twice: a working Python
version (`main.py`) and an unfinished C++ port (`braingarden_test.cpp`).

The model works over Dafny's `real`. Sine and cosine are not computed: an
`Angle` carries its measure with its sine and cosine, and facts that need
`sin² + cos² = 1` take it as a hypothesis (`OnUnitCircle`).

Modules:

- `Primitives` (primitives.dfy): points, angles, four-cornered outlines,
  colours, `Option`, and truncation toward zero (`Trunc`), which is what
  Python's `int()`, numpy's `astype(int)` and C++'s float-to-int conversion do.
- `Bodies` (bodies.dfy): the Python bodies. Each has a value (`CircleState`,
  `PlaneState`, `CanonState`) with pure functions for what the source
  computes: `Moved`, `CircleCatched`, `ExactBox`, `Box`, `Muzzle` and
  `Projectile`. Each also has a class whose methods change its fields in
  place and are specified by those functions. The catcher's `vx` and the
  launcher's `vx` and `vy` are read-only zeros, so the catcher never moves
  horizontally and the launcher never moves at all.
- `Simulation` (simulation.dfy): the Python `Scene`. `Frame` is one pass of
  the loop body of `Scene.run`. `Session` is the loop over a finite sequence
  of keyboard polls, ending at the first Escape (key 27). Lemmas about them
  cover the projectile's discrete parabola, the fixed launcher, the catcher's
  vertical drift and one catch report per frame. The class `Scene` runs the
  same loop on the body objects, and its `Run` is proved to follow `Session`.
- `CppPort` (cpp_port.dfy): the C++ port. It covers the angle conversions
  with pi taken as 3.14, `Movable` with its update and accessors, the
  launcher's constructor and launch point, the `out_of_scene` field test,
  `Tracker::extract_coords` and `Plane::update_position`. Each C++ class that
  inherits from `Movable` here owns a `Movable` object, `body`.

Where the code is inconsistent with itself, or does less than its own
names suggest, the model follows what the code does:

- The catch band is `[y - length, y]`. The rectangle `Plane.draw` fills is
  `[y, y + length]`. The two share only the line `y` (`CatchBandAboveDrawnPlane`).
- The Python loop relaunches only past the right or the bottom edge, with
  strict comparisons, while the C++ `out_of_scene` tests all four edges
  (`RelaunchIsOutOfScene`). A projectile that leaves through the left or the
  top edge is not relaunched while it stays inside the right and the bottom
  edges. A left exit cannot come back to the right edge, since vx never
  changes; only a top exit with vx > 0 can still leave by the right edge.
  With vg > 0, as in the script, every flight eventually falls past the
  bottom edge and is relaunched (`FallsPastBottom`). With vg ≤ 0 and no
  motion right or down it flies on for ever (`NoPullNoRelaunch`).
- A catch is only reported. It does not relaunch (`CatchDoesNotRelaunch`).
- The C++ `Tracker` declares `estimate_parabola` and `estimate_position`
  without bodies, and `Plane::circle_caught` is empty, so neither version
  steers the catcher: the Python catcher only drifts by its own `vy`.

## Model

| member | source | states |
|---|---|---|
| `Primitives.Trunc` | main.py:89 | int() rounds toward zero: for r ≥ 0 the result is the largest integer ≤ r, for r < 0 the smallest ≥ r |
| `Bodies.CircleState.Moved` | main.py:15-17 | a circle's step sets x' = x + vx, y' = y + vy and leaves velocity, radius and colour unchanged |
| `Bodies.Circle.constructor` | main.py:24-26 | a circle holds the radius, colour, position and velocity it is given |
| `Bodies.Circle.UpdatePosition` | main.py:15-17 | in place: x += vx, y += vy, every other field unchanged |
| `Bodies.CircleCatched` | main.py:46-47 | circle_catched: the circle's right-most x (x + radius) is at least the plane's x, and its centre's y lies in [y − length, y], both ends included |
| `Bodies.PlaneState.Moved` | main.py:36-44 | with vx read as 0 the catcher's step keeps x and moves y by vy, nothing else changes |
| `Bodies.Plane.constructor` | main.py:33-36 | a catcher holds its size, colour, position and vy, and its vx reads 0 |
| `Bodies.Plane.Vx` | main.py:38-40 | the vx property always reads 0 |
| `Bodies.Plane.SetVx` | main.py:42-44 | assigning vx has no effect: it still reads 0 |
| `Bodies.Plane.UpdatePosition` | main.py:15-17 | in place: x stays, y += vy, every other field unchanged |
| `Bodies.CatchIsInclusive` | main.py:46-47 | equality on each of the three comparisons of circle_catched still counts as a catch |
| `Bodies.CatchBandAboveDrawnPlane` | main.py:46-51 | a caught circle whose centre lies within the drawn rectangle's rows is on its top line y |
| `Bodies.CatchHoldsFurtherRight` | main.py:46-47 | the x test has no upper bound: a caught circle moved right stays caught |
| `Bodies.CanonState.Moved` | main.py:69-83 | with vx and vy read as 0 the launcher's step changes nothing |
| `Bodies.ExactBox` | main.py:96-101 | p1 is the pose and p3 − p2 = p4 − p1, p2 − p1 = p3 − p4: the outline is a parallelogram |
| `Bodies.ExactBoxIsRectangle` | main.py:98-101 | the sides at p1 are perpendicular; on the unit circle they measure width and length |
| `Bodies.Box` | main.py:96-105 | each corner after astype(int) is within one unit of the exact corner |
| `Bodies.MuzzleOnBarrelAxis` | main.py:86-87 | the midpoint of p3 and p4 is pose + length·(cos, sin) + (width/2)·(−sin, cos) |
| `Bodies.Projectile` | main.py:85-94 | the shot's radius is int(width/2), so 2·radius ≤ width < 2·radius + 2, and its colour is the launcher's circle colour |
| `Bodies.ProjectileAtMuzzle` | main.py:86-87 | the shot appears halfway between truncated p3 and p4, within one unit of the muzzle |
| `Bodies.ProjectileSpeed` | main.py:91-92 | the shot's velocity is launch_speed·(cos, sin); on the unit circle its speed is launch_speed |
| `Bodies.Canon.constructor` | main.py:55-67 | the launcher holds the given pose, angle, size, speed and colour, fires in (0, 0, 255), and both velocities read 0 |
| `Bodies.Canon.Vx` | main.py:69-71 | the vx property always reads 0 |
| `Bodies.Canon.Vy` | main.py:77-79 | the vy property always reads 0 |
| `Bodies.Canon.SetVx` | main.py:73-75 | assigning vx has no effect: it still reads 0 |
| `Bodies.Canon.SetVy` | main.py:81-83 | assigning vy has no effect: it still reads 0 |
| `Bodies.Canon.UpdatePosition` | main.py:69-83 | the launcher's update leaves x, y and every other field unchanged |
| `Bodies.Canon.SetAngle` | main.py:110-111 | set_angle stores the angle unchanged, with no clamping, and changes nothing else |
| `Bodies.Canon.Shoot` | main.py:85-94 | shoot returns a new circle whose state is Projectile of the launcher, and changes nothing |
| `Simulation.Fall` | main.py:143-144 | the projectile's frame: position += velocity, then vy += vg, with vx, radius and colour kept |
| `Simulation.Relaunches` | main.py:148 | the relaunch test: the centre is strictly past the right edge (x > width) or the bottom edge (y > height) |
| `Simulation.FallsPastBottom` | main.py:143-149 | with vg > 0 every flight, whichever edge it leaves by, eventually passes the bottom edge and so meets the relaunch test |
| `Simulation.NoPullNoRelaunch` | main.py:143-149 | with vg ≤ 0, a projectile inside the right and bottom edges moving neither right nor down is never relaunched |
| `Simulation.FlightIsParabola` | main.py:143-144 | after k frames without relaunch: x + k·vx, y + k·vy + vg·k(k−1)/2, velocity (vx, vy + k·vg) |
| `Simulation.Frame` | main.py:143-149 | one loop pass: the catcher steps, the catch is tested on the moved bodies, and the circle is replaced by a fresh shot iff x > width or y > height; launcher and configuration unchanged |
| `Simulation.CatchDoesNotRelaunch` | main.py:146-149 | a reported catch does not end the flight: a caught circle still inside flies on |
| `Simulation.Steer` | main.py:110-126 | a poll with an angle stores exactly that angle in the launcher and changes nothing else; a poll without one leaves the world as it is |
| `Simulation.Session` | main.py:141-150 | run over a finite sequence of polls: each poll first applies the trackbar angle, then Escape ends the loop and any other key runs one Frame and adds its catch report |
| `Simulation.FramesRun` | main.py:142 | the number of frames run is the number of polls before the first Escape |
| `Simulation.SessionReportsEachFrame` | main.py:142-147 | a session gives exactly one catch report per frame run |
| `Simulation.SessionKeepsLauncher` | main.py:141-150 | over any session the launcher keeps its pose, size and speed (only its angle may change), and gravity and field size stay fixed |
| `Simulation.DriftIsVertical` | main.py:36-44 | after n steps the catcher keeps its x and has moved n·vy vertically |
| `Simulation.SessionMovesCatcher` | main.py:128-130 | over a session the catcher takes one step per frame run |
| `Simulation.SessionKeepsProjectileFired` | main.py:148-149 | the live projectile always has the radius and colour of a shot from the scene's launcher |
| `Simulation.Start` | main.py:115-121 | the scene holds the given launcher, catcher, gravity and field size, and its first projectile is the launcher's first shot: fired by it, within one unit of the muzzle, moving at launch_speed·(cos, sin) |
| `Simulation.Scene.constructor` | main.py:115-122 | the scene keeps the given launcher and catcher and a fresh circle fired by the launcher |
| `Simulation.Scene.Update` | main.py:128-130 | update moves the circle and the catcher one step each |
| `Simulation.Scene.Tick` | main.py:143-149 | one loop pass on the objects yields exactly Frame's new state and catch report |
| `Simulation.Scene.Step` | main.py:141-149 | one loop iteration on the objects: the angle is stored, Escape stops, any other key yields exactly Frame's new state and catch report |
| `Simulation.Scene.Run` | main.py:141-150 | run over a sequence of polls ends in Session's state with Session's catch reports |
| `CppPort.Radians` | braingarden_test.cpp:15-21 | degrees(radians(d)) = d, and radians keeps the sign |
| `CppPort.Degrees` | braingarden_test.cpp:19-21 | degrees() keeps the sign and maps pi (3.14) to 180 |
| `CppPort.RadiansOfDegrees` | braingarden_test.cpp:15-21 | radians(degrees(r)) = r |
| `CppPort.Movable.constructor` | braingarden_test.cpp:32-39 | a body holds the position, velocity and colour it is given |
| `CppPort.Movable.UpdatePosition` | braingarden_test.cpp:41-44 | x += vx, y += vy, velocities and colour unchanged |
| `CppPort.Movable.SetX` | braingarden_test.cpp:48-53 | after set_x(v), get_x() is v and y is unchanged |
| `CppPort.Movable.SetY` | braingarden_test.cpp:54-59 | after set_y(v), get_y() is v and x is unchanged |
| `CppPort.Canon.constructor` | braingarden_test.cpp:75-80 | the launcher starts at rest at (x0, y0) with the given angle, length and width |
| `CppPort.LaunchPoint` | braingarden_test.cpp:89-93 | the launch point is equidistant from the third and fourth corners |
| `CppPort.OutsideField` | braingarden_test.cpp:150-152 | out_of_scene holds iff the centre is outside the closed rectangle [0, width] × [0, height] |
| `CppPort.Circle.OutOfScene` | braingarden_test.cpp:150-152 | out_of_scene of the circle's own centre: strictly beyond one of the four edges |
| `CppPort.RelaunchIsOutOfScene` | braingarden_test.cpp:150-152 | the Python relaunch test implies out_of_scene, but a left exit is out of the scene and not relaunched |
| `CppPort.Circle.constructor` | braingarden_test.cpp:143-146 | a circle holds its radius, position, velocity and colour |
| `CppPort.Third` | braingarden_test.cpp:131 | width / 3 in C++ rounds toward zero |
| `CppPort.Observation` | braingarden_test.cpp:127-133 | an observation exists iff m00 ≠ 0 and is within one pixel of (m10/m00 + width/3, m01/m00) |
| `CppPort.Tracker.constructor` | braingarden_test.cpp:116-125 | a tracker starts with no recorded coordinates |
| `CppPort.Tracker.ExtractCoords` | braingarden_test.cpp:127-133 | if m00 = 0 coords are unchanged, otherwise exactly the observation is appended and earlier elements stay |
| `CppPort.Plane.constructor` | braingarden_test.cpp:161-166 | the catcher starts with vx = 0, the given vy, and an empty observation record |
| `CppPort.Plane.UpdatePosition` | braingarden_test.cpp:171-174 | the catcher does not move; it only records the observation from the given moments |

## Left out

- Rendering and windowing are left out: every `draw`, `Scene.show`, `clear_img`, the window and trackbar set-up, `imshow` and `destroyWindow`. They are output only.
- `cv2.waitKey` is an input. Its key codes, and any angle the trackbar set while it waited, arrive as a finite sequence of `Poll`s. The real loop runs until Escape, however long that takes.
- The trackbar callback converts a whole-degree value to `-np.radians(angle)`. The model's `Poll` carries the resulting `Angle` directly, because the conversion is UI wiring.
- `print('success')` becomes the sequence of catch reports that `Run` returns.
- Trigonometry is not modelled. The sine and cosine ride in `Angle`, and only their algebra is verified.
- Floating-point rounding is not modelled. Every quantity is a real, including the C++ `float` fields and conversions.
- `Scene.run` relaunches through the module-level `canon` (main.py:149). The model relaunches through the scene's own launcher, which is the same object in the script at main.py:153-158.
- The scene's `window_name`, `delay` and `img` and the third component of `shape` are left out. They serve only rendering.
- `get_random_angle` is left out. It draws from a random engine, and its result is only used by the C++ `shoot`.
- The C++ `shoot` is left out. It builds a `Circle` and discards it, and it reads `launch_speed`, which nothing initialises.
- The C++ `box` and `RotatedRect::points` are OpenCV calls. The corners reach `LaunchPoint` as input.
- LaunchPoint: does not model OpenCV's integer `Point` arithmetic, which rounds each corner and the halved sum to whole pixels. The corners are reals here.
- The C++ `Scene` class is left out: `set_plane`, `set_circle`, `set_canon`, `update`, `show`, `run` and `center_img`. It keeps pointers to copies that no longer exist. Its `update` would clear the image, step the circle through `Movable::update_position` (modelled by `Movable.UpdatePosition`) and call `Plane::update_position` (modelled by `Plane.UpdatePosition`). It stores the gravity `g` but never applies it, and its `run` only calls the launcher's `shoot`, never `update`. The moments of the middle third of the image that `center_img` feeds the tracker are an input to `Plane.UpdatePosition`.
- `Movable::get_scene` and the `Scene` field of every C++ body are left out. The field size is passed to `OutsideField` and `Observation` instead.
- The C++ `Tracker` constructor stores a pointer to its argument, and `Plane` stores a pointer to a temporary `Tracker`. Here the catcher owns its tracker, which is what the code evidently intends.
- `Plane::circle_caught` is left out because its body is empty.
- `Tracker::estimate_parabola` and `Tracker::estimate_position` are left out because they are declared without bodies.
