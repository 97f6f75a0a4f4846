/** The host's per-frame logic (`loop` in the `SolarSystem` component) and
    the orbit simulator's `resetOrbitSim`, `launchOrbitSim` and `applyPreset`.

    The refs the loop mutates (`shipRef`, `bodiesRef`, `asteroidsRef`,
    `cameraRef`, `cameraShakeRef`, `autopilotTargetRef`, `orbitSimRef`) are the
    fields of `Host`. The React state the loop reads is a `GameState.State`
    snapshot, and the dispatches it makes are returned, in order, as a
    sequence of `GameState.Action`s. Sounds and drawing are left out. */
module SolarSystem {
  import opened Geometry
  import GS = GameState
  import Arcade
  import Raiden

  datatype Body = Body(name: string, radius: real, orbitRadius: real, orbitSpeed: real, angle: real)

  /** One rock of the decorative asteroid belt. */
  datatype Rock = Rock(pos: Vec, orbitRadius: real, orbitSpeed: real, angle: real,
                       rotation: real, rotationSpeed: real)

  datatype Ship = Ship(pos: Vec, vel: Vec, rotation: real, thrusting: bool, trail: seq<Vec>, fuel: real)

  datatype Status = Ready | Running | Crashed | Escaped

  datatype Satellite = Satellite(pos: Vec, vel: Vec)

  datatype OrbitSim = OrbitSim(sat: Satellite, trail: seq<Vec>, status: Status)

  /** The aggregated input: the direction, clamped to unit length, and the
      magnitude measured before the clamp. */
  datatype Input = Input(dir: Vec, mag: real)

  datatype Preset = Circular | Elliptical | EscapeOrbit | Crash

  const SHIP_ACCELERATION: real := 0.2
  const SHIP_FRICTION: real := 0.98
  const MAX_SPEED: real := 8.0
  /** The solar speed bound, `MAX_SPEED * 1.5`. */
  const SPEED_LIMIT: real := 12.0
  const MAX_FUEL: real := 100.0
  const TOUCH_DEADZONE: real := 30.0
  const APPROACH_MARGIN: real := 150.0
  const SCAN_RANGE: real := 300.0
  const SUN_ZONE: real := 200.0
  const BASE_RECHARGE: real := 0.02
  /** A trail is shifted once it holds more than this many points. */
  const TRAIL_LIMIT: nat := 100
  const ORBIT_TRAIL_LIMIT: nat := 500
  const EARTH_MASS: real := 1800.0
  const CRASH_RADIUS: real := 45.0
  const ESCAPE_RADIUS: real := 5000.0

  function Zero(): Vec { Vec(0.0, 0.0) }

  // ----- Input -----

  predicate ManualMode(mode: GS.GameMode) { mode == GS.Solar || mode == GS.Arcade }

  /** A touch target further than 30 from the ship, in solar or arcade mode,
      replaces the joystick vector by the unit vector towards it. */
  function TouchSteer(m: MathLib, joystick: Vec, touch: GS.Option<Vec>, shipPos: Vec, mode: GS.GameMode): Vec {
    if touch.Some? && ManualMode(mode) then
      var d := Sub(touch.value, shipPos);
      var dist := Length(m, d);
      if dist > TOUCH_DEADZONE then DivBy(d, dist) else joystick
    else joystick
  }

  /** The four key pairs, each adding or taking one unit on its axis. */
  function KeyShift(keys: set<string>, v: Vec): Vec {
    var y1 := if "w" in keys || "arrowup" in keys then v.y - 1.0 else v.y;
    var y2 := if "s" in keys || "arrowdown" in keys then y1 + 1.0 else y1;
    var x1 := if "a" in keys || "arrowleft" in keys then v.x - 1.0 else v.x;
    var x2 := if "d" in keys || "arrowright" in keys then x1 + 1.0 else x1;
    Vec(x2, y2)
  }

  /** The input vector before the clamp. */
  function RawInput(m: MathLib, joystick: Vec, touch: GS.Option<Vec>, shipPos: Vec,
                    mode: GS.GameMode, keys: set<string>): Vec {
    KeyShift(keys, TouchSteer(m, joystick, touch, shipPos, mode))
  }

  /** `inputMag` and the clamp to unit length. */
  function ClampInput(m: MathLib, raw: Vec): Input {
    var mag := Length(m, raw);
    if mag > 1.0 then Input(DivBy(raw, mag), mag) else Input(raw, mag)
  }

  function Aggregate(m: MathLib, joystick: Vec, touch: GS.Option<Vec>, shipPos: Vec,
                     mode: GS.GameMode, keys: set<string>): Input {
    ClampInput(m, RawInput(m, joystick, touch, shipPos, mode, keys))
  }

  /** A touch beyond the dead zone steers with a unit vector, whatever the joystick says. */
  lemma TouchIsUnit(m: MathLib, joystick: Vec, t: Vec, shipPos: Vec, mode: GS.GameMode)
    requires ExactSqrt(m) && ManualMode(mode)
    requires Length(m, Sub(t, shipPos)) > TOUCH_DEADZONE
    ensures Norm2(TouchSteer(m, joystick, GS.Some(t), shipPos, mode)) == 1.0
  {
    var d := Sub(t, shipPos);
    SqNonNegative(d.x);
    SqNonNegative(d.y);
    DivideByLength(d, Length(m, d));
  }

  /** Outside solar and arcade mode, or without a touch, the joystick vector is kept. */
  lemma TouchIgnored(m: MathLib, joystick: Vec, touch: GS.Option<Vec>, shipPos: Vec, mode: GS.GameMode)
    requires touch.None? || !ManualMode(mode)
    ensures TouchSteer(m, joystick, touch, shipPos, mode) == joystick
  {}

  /** After the clamp the direction has length at most 1, `inputMag` is its
      length before, a vector within unit length passes unchanged, and a
      longer one keeps its direction. */
  lemma ClampInputIsUnit(m: MathLib, raw: Vec)
    requires ExactSqrt(m)
    ensures Norm2(ClampInput(m, raw).dir) <= 1.0
    ensures 0.0 <= ClampInput(m, raw).mag && Sq(ClampInput(m, raw).mag) == Norm2(raw)
    ensures Norm2(raw) <= 1.0 ==> ClampInput(m, raw).dir == raw
    ensures Norm2(raw) > 1.0 ==> ClampInput(m, raw).dir == Scale(raw, 1.0 / ClampInput(m, raw).mag)
  {
    SqNonNegative(raw.x);
    SqNonNegative(raw.y);
    var mag := Length(m, raw);
    assert 0.0 <= mag && Sq(mag) == Norm2(raw);
    if mag > 1.0 {
      SquareMonotone(1.0, mag);
      DivideByLength(raw, mag);
      assert DivBy(raw, mag) == Scale(raw, 1.0 / mag);
    } else {
      SquareMonotone(mag, 1.0);
    }
  }

  // ----- Heading error -----

  function Turns(k: int): real { k as real * TWO_PI }

  /** The first `while` of the wrap: add a full turn while below -PI. */
  function WrapUp(d: real): real
    decreases (-PI - d).Floor
  {
    if d < -PI then WrapUp(d + TWO_PI) else d
  }

  /** The second `while`: take a full turn while above PI. */
  function WrapDown(d: real): real
    decreases (d - PI).Floor
  {
    if d > PI then WrapDown(d - TWO_PI) else d
  }

  /** The heading error as the two loops leave it. */
  function Wrap(d: real): real { WrapDown(WrapUp(d)) }

  lemma {:induction false} WrapUpFacts(d: real)
    ensures -PI <= WrapUp(d)
    ensures d < -PI ==> WrapUp(d) < PI
    ensures -PI <= d ==> WrapUp(d) == d
    ensures exists k :: WrapUp(d) == d + Turns(k)
    decreases (-PI - d).Floor
  {
    if d < -PI {
      WrapUpFacts(d + TWO_PI);
      var k :| WrapUp(d + TWO_PI) == d + TWO_PI + Turns(k);
      assert Turns(k + 1) == Turns(k) + TWO_PI;
      assert WrapUp(d) == d + Turns(k + 1);
    } else {
      assert WrapUp(d) == d + Turns(0);
    }
  }

  lemma {:induction false} WrapDownFacts(d: real)
    ensures WrapDown(d) <= PI
    ensures PI < d ==> -PI < WrapDown(d)
    ensures d <= PI ==> WrapDown(d) == d
    ensures exists k :: WrapDown(d) == d + Turns(k)
    decreases (d - PI).Floor
  {
    if d > PI {
      WrapDownFacts(d - TWO_PI);
      var k :| WrapDown(d - TWO_PI) == d - TWO_PI + Turns(k);
      assert Turns(k - 1) == Turns(k) - TWO_PI;
      assert WrapDown(d) == d + Turns(k - 1);
    } else {
      assert WrapDown(d) == d + Turns(0);
    }
  }

  /** The wrapped error lies in [-PI, PI], differs from the error by whole
      turns, and an error already in range is kept. */
  lemma WrapInRange(d: real)
    ensures -PI <= Wrap(d) <= PI
    ensures exists k :: Wrap(d) == d + Turns(k)
    ensures -PI <= d <= PI ==> Wrap(d) == d
  {
    WrapUpFacts(d);
    var u := WrapUp(d);
    WrapDownFacts(u);
    var k1 :| u == d + Turns(k1);
    var k2 :| WrapDown(u) == u + Turns(k2);
    assert Turns(k1) + Turns(k2) == Turns(k1 + k2);
    assert Wrap(d) == d + Turns(k1 + k2);
  }

  /** The two `while` loops that bring a heading error into [-PI, PI]. */
  method WrapAngle(d: real) returns (diff: real)
    ensures diff == Wrap(d)
    ensures -PI <= diff <= PI
    ensures exists k :: diff == d + Turns(k)
  {
    diff := d;
    while diff < -PI
      invariant WrapUp(diff) == WrapUp(d)
      decreases (-PI - diff).Floor
    {
      diff := diff + PI * 2.0;
    }
    ghost var up := diff;
    while diff > PI
      invariant WrapDown(diff) == WrapDown(up)
      decreases (diff - PI).Floor
    {
      diff := diff - PI * 2.0;
    }
    WrapInRange(d);
  }

  // ----- Manual control and autopilot -----

  function Heading(m: MathLib, rotation: real): Vec { Vec(m.cos(rotation), m.sin(rotation)) }

  /** Manual control: turn 15% of the wrapped error towards the input, then
      thrust along the new heading if the ship may (always in arcade mode,
      with fuel left in solar mode); solar thrust burns `0.1 * inputMag`. */
  function ManualShip(m: MathLib, s: Ship, dir: Vec, mag: real, arcade: bool): Ship {
    var rot := s.rotation + Wrap(m.atan2(dir.y, dir.x) - s.rotation) * 0.15;
    if arcade || s.fuel > 0.0 then
      s.(rotation := rot,
         vel := Add(s.vel, Scale(Heading(m, rot), mag * SHIP_ACCELERATION)),
         thrusting := true,
         fuel := if arcade then s.fuel else Max(0.0, s.fuel - 0.1 * mag))
    else
      s.(rotation := rot, thrusting := false)
  }

  /** Manual control turns by at most 0.15 PI, never moves the ship or its
      trail, thrusts exactly when allowed, never burns fuel in arcade mode,
      never thrusts on an empty tank in solar mode, and keeps the fuel in
      [0, 100] without raising it. */
  lemma ManualShipFacts(m: MathLib, s: Ship, dir: Vec, mag: real, arcade: bool)
    requires 0.0 <= mag
    ensures var r := ManualShip(m, s, dir, mag, arcade);
      && Abs(r.rotation - s.rotation) <= 0.15 * PI
      && r.pos == s.pos && r.trail == s.trail
      && (r.thrusting <==> arcade || s.fuel > 0.0)
      && (arcade ==> r.fuel == s.fuel)
      && (!arcade && s.fuel <= 0.0 ==> r.vel == s.vel && r.fuel == s.fuel)
      && (!arcade && s.fuel > 0.0 ==> r.fuel == Max(0.0, s.fuel - 0.1 * mag))
      && (0.0 <= s.fuel <= MAX_FUEL ==> 0.0 <= r.fuel <= s.fuel)
  {
    var e := m.atan2(dir.y, dir.x) - s.rotation;
    WrapInRange(e);
    MulMonotone(0.15, Wrap(e), PI);
    MulMonotone(0.15, -PI, Wrap(e));
  }

  function BodyPos(m: MathLib, b: Body): Vec {
    Vec(m.cos(b.angle) * b.orbitRadius, m.sin(b.angle) * b.orbitRadius)
  }

  /** The body's orbital velocity, the derivative of `BodyPos` along the orbit. */
  function BodyVel(m: MathLib, b: Body): Vec {
    Vec(-m.sin(b.angle) * b.orbitRadius * b.orbitSpeed, m.cos(b.angle) * b.orbitRadius * b.orbitSpeed)
  }

  /** The approach phase: further than `radius + 150` from the target. */
  predicate Approaching(m: MathLib, s: Ship, b: Body) {
    Length(m, Sub(BodyPos(m, b), s.pos)) > b.radius + APPROACH_MARGIN
  }

  /** The rendezvous correction: 10% of the way to the body's velocity plus 5%
      of the offset to it. */
  function Correction(m: MathLib, s: Ship, b: Body): Vec {
    var d := Sub(BodyPos(m, b), s.pos);
    Scale(Sub(Add(BodyVel(m, b), Scale(d, 0.05)), s.vel), 0.1)
  }

  /** One autopilot frame towards `b`: turn 10% of the wrapped error, then
      either the approach burn or the rendezvous correction. */
  function AutopilotShip(m: MathLib, s: Ship, b: Body): Ship {
    var d := Sub(BodyPos(m, b), s.pos);
    var rot := s.rotation + Wrap(m.atan2(d.y, d.x) - s.rotation) * 0.1;
    if Approaching(m, s, b) then
      if s.fuel > 0.0 then
        s.(rotation := rot,
           vel := Add(s.vel, Scale(Heading(m, rot), SHIP_ACCELERATION * 0.8)),
           thrusting := true,
           fuel := Max(0.0, s.fuel - 0.08))
      else
        s.(rotation := rot, thrusting := false)
    else
      var a := Correction(m, s, b);
      var mag := Length(m, a);
      var burn := mag > 0.05 && s.fuel > 0.0;
      s.(rotation := rot,
         vel := Add(s.vel, a),
         thrusting := burn,
         fuel := if burn then Max(0.0, s.fuel - 0.03 * mag) else s.fuel)
  }

  /** The two autopilot phases: the approach burn applies exactly beyond
      `radius + 150` and needs fuel; the rendezvous always applies the
      correction and burns fuel only when it exceeds 0.05 with fuel left. In
      both, the ship stays put, turns by at most 0.1 PI, and the fuel stays in
      [0, 100] without rising. */
  lemma AutopilotShipFacts(m: MathLib, s: Ship, b: Body)
    ensures var r := AutopilotShip(m, s, b);
      && Abs(r.rotation - s.rotation) <= 0.1 * PI
      && r.pos == s.pos && r.trail == s.trail
      && (Approaching(m, s, b) && s.fuel > 0.0 ==>
            r.thrusting && r.fuel == Max(0.0, s.fuel - 0.08)
            && r.vel == Add(s.vel, Scale(Heading(m, r.rotation), SHIP_ACCELERATION * 0.8)))
      && (Approaching(m, s, b) && s.fuel <= 0.0 ==> !r.thrusting && r.vel == s.vel && r.fuel == s.fuel)
      && (!Approaching(m, s, b) ==>
            r.vel == Add(s.vel, Correction(m, s, b))
            && (r.thrusting <==> Length(m, Correction(m, s, b)) > 0.05 && s.fuel > 0.0)
            && (!r.thrusting ==> r.fuel == s.fuel))
      && (0.0 <= s.fuel <= MAX_FUEL ==> 0.0 <= r.fuel <= s.fuel)
  {
    var d := Sub(BodyPos(m, b), s.pos);
    var e := m.atan2(d.y, d.x) - s.rotation;
    WrapInRange(e);
    MulMonotone(0.1, Wrap(e), PI);
    MulMonotone(0.1, -PI, Wrap(e));
  }

  /** `bodies.find(b => b.name === name)`: the first body of that name. */
  function FindBody(bs: seq<Body>, name: string): (r: GS.Option<Body>)
    ensures r.Some? ==> r.value in bs && r.value.name == name
    ensures r.None? <==> forall i :: 0 <= i < |bs| ==> bs[i].name != name
  {
    if |bs| == 0 then GS.None
    else if bs[0].name == name then GS.Some(bs[0])
    else
      var r := FindBody(bs[1..], name);
      assert forall i :: 1 <= i < |bs| ==> bs[i] == bs[1..][i - 1];
      r
  }

  // ----- Trails -----

  /** `if (trail.length > limit) trail.shift(); if (push) trail.push(p)`: the
      oldest point goes only when the trail is over the limit, the new point
      is appended only when asked, and the newest points are the ones kept. */
  function PushTrail(t: seq<Vec>, limit: nat, p: Vec, push: bool): (r: seq<Vec>)
    ensures |r| == |t| - (if |t| > limit then 1 else 0) + (if push then 1 else 0)
    ensures |t| <= limit + 1 ==> |r| <= limit + 1
    ensures push ==> r == t[|t| + 1 - |r|..] + [p]
    ensures !push ==> r == t[|t| - |r|..]
  {
    var kept := if |t| > limit then t[1..] else t;
    if push then kept + [p] else kept
  }

  // ----- Arcade ship -----

  /** The ship drifts by its velocity, wraps into the canvas and keeps 99% of
      its velocity. */
  function ArcadeDrift(s: Ship, width: real, height: real): (r: Ship)
    requires 0.0 <= width && 0.0 <= height
    ensures 0.0 <= r.pos.x <= width && 0.0 <= r.pos.y <= height
    ensures Arcade.InField(Add(s.pos, s.vel), 0.0, width, height) ==> r.pos == Add(s.pos, s.vel)
    ensures Add(s.pos, s.vel).x < 0.0 ==> r.pos.x == width
    ensures Add(s.pos, s.vel).x > width ==> r.pos.x == 0.0
    ensures r.vel == Scale(s.vel, 0.99)
    ensures r.rotation == s.rotation && r.fuel == s.fuel && r.trail == s.trail && r.thrusting == s.thrusting
  {
    var p := Add(s.pos, s.vel);
    s.(pos := Vec(Arcade.WrapCoord(p.x, 0.0, width), Arcade.WrapCoord(p.y, 0.0, height)),
       vel := Scale(s.vel, 0.99))
  }

  /** `5 + Math.floor(score / 1000)` asteroids in a new wave (none for a
      count below zero, as the spawn loop would run no times). */
  function WaveSize(score: int): (n: nat)
    ensures 0 <= score ==> 5 <= n && n == 5 + score / 1000
  {
    if 5 + score / 1000 < 0 then 0 else 5 + score / 1000
  }

  /** Every thousand points add one asteroid to each new wave. */
  lemma WaveSizeGrows(score: int)
    requires 0 <= score
    ensures WaveSize(score + 1000) == WaveSize(score) + 1
    ensures score < 1000 ==> WaveSize(score) == 5
  {
    assert (score + 1000) / 1000 == score / 1000 + 1;
  }

  // ----- Orbit simulator -----

  /** The pull of the central mass: `-(1800 / rSq) * (p / r)`. */
  function Gravity(m: MathLib, p: Vec): Vec
    requires Norm2(p) != 0.0 && Length(m, p) != 0.0
  {
    var force := EARTH_MASS / Norm2(p);
    var r := Length(m, p);
    Vec(-force * (p.x / r), -force * (p.y / r))
  }

  /** Gravity points at the centre and has magnitude `1800 / r^2`. */
  lemma InverseSquare(m: MathLib, p: Vec)
    requires ExactSqrt(m) && Norm2(p) > 0.0
    ensures Length(m, p) > 0.0
    ensures Gravity(m, p) == Scale(p, -(EARTH_MASS / Norm2(p)) / Length(m, p))
    ensures Norm2(Gravity(m, p)) == Sq(EARTH_MASS / Norm2(p))
  {
    var r := Length(m, p);
    assert 0.0 <= r && Sq(r) == Norm2(p);
    assert r != 0.0;
    Pull(p, Norm2(p), r);
  }

  /** The pull towards the centre, written with `n` for the squared distance
      and `r` for its root: `-(1800 / n)` times the unit vector `p / r` is
      `p` scaled by `-(1800 / n) / r`, of squared length `(1800 / n)^2`. */
  lemma Pull(p: Vec, n: real, r: real)
    requires n == Norm2(p) && n > 0.0 && r != 0.0 && Sq(r) == n
    ensures Vec(-(EARTH_MASS / n) * (p.x / r), -(EARTH_MASS / n) * (p.y / r)) == Scale(p, -(EARTH_MASS / n) / r)
    ensures Norm2(Scale(p, -(EARTH_MASS / n) / r)) == Sq(EARTH_MASS / n)
  {
    PullAlong(p, EARTH_MASS / n, r);
    ScaleNorm(p, -(EARTH_MASS / n) / r);
    ScaledSquare(EARTH_MASS / n, r, n);
  }

  /** `-f` times the vector `p / r` is `p` scaled by `-f / r`. */
  lemma PullAlong(p: Vec, f: real, r: real)
    requires r != 0.0
    ensures Vec(-f * (p.x / r), -f * (p.y / r)) == Scale(p, -f / r)
  {
    ShiftDivision(f, p.x, r);
    ShiftDivision(f, p.y, r);
  }

  /** Dividing by `r` and then scaling by `-f` is scaling by `-f / r`. */
  lemma ShiftDivision(f: real, x: real, r: real)
    requires r != 0.0
    ensures -f * (x / r) == x * (-f / r)
  {}

  /** With `r * r == n`, the square of `-f / r` times `n` is the square of `f`. */
  lemma ScaledSquare(f: real, r: real, n: real)
    requires r != 0.0 && Sq(r) == n
    ensures Sq(-f / r) * n == Sq(f)
  {
    var c := -f / r;
    assert c * r == -f;
    SqMul(c, r);
  }

  /** A distance of at least 45 under an exact root is a non-zero square. */
  lemma FarFromCentre(m: MathLib, p: Vec)
    requires ExactSqrt(m) && Length(m, p) >= CRASH_RADIUS
    ensures Norm2(p) > 0.0
  {
    SqNonNegative(p.x);
    SqNonNegative(p.y);
    SquareMonotone(CRASH_RADIUS, Length(m, p));
  }

  /** One frame of the simulator: a ready satellite is pinned at `(distance,
      0)` at rest; a running one crashes inside 45, escapes beyond 5000, and
      otherwise takes a semi-implicit Euler step (velocity first, then
      position by the new velocity) and leaves a trail point when the roll
      exceeds 0.1; crashed and escaped ones stay as they are. */
  function OrbitNext(m: MathLib, sim: OrbitSim, params: GS.OrbitParams, roll: real): OrbitSim
    requires ExactSqrt(m)
  {
    match sim.status
    case Ready => sim.(sat := Satellite(Vec(params.distance, 0.0), Zero()))
    case Running =>
      var r := Length(m, sim.sat.pos);
      if r < CRASH_RADIUS then sim.(status := Crashed)
      else if r > ESCAPE_RADIUS then sim.(status := Escaped)
      else
        FarFromCentre(m, sim.sat.pos);
        var vel := Add(sim.sat.vel, Gravity(m, sim.sat.pos));
        var pos := Add(sim.sat.pos, vel);
        OrbitSim(Satellite(pos, vel), PushTrail(sim.trail, ORBIT_TRAIL_LIMIT, pos, roll > 0.1), Running)
    case Crashed => sim
    case Escaped => sim
  }

  /** The status machine `ready -> running -> crashed | escaped`: no frame
      returns to `ready` or leaves a final status; a status change happens
      only from `running`, at the two radii, without moving the satellite;
      a running frame is the Euler step under an inverse-square pull; and
      the trail stays within 501 points. */
  lemma OrbitStatusMachine(m: MathLib, sim: OrbitSim, params: GS.OrbitParams, roll: real)
    requires ExactSqrt(m)
    ensures var r := OrbitNext(m, sim, params, roll);
      && (sim.status == Ready ==>
            r.status == Ready && r.trail == sim.trail
            && r.sat == Satellite(Vec(params.distance, 0.0), Zero()))
      && (sim.status == Crashed || sim.status == Escaped ==> r == sim)
      && (sim.status == Running ==>
            r.status != Ready
            && (r.status == Crashed <==> Length(m, sim.sat.pos) < CRASH_RADIUS)
            && (r.status == Escaped <==> Length(m, sim.sat.pos) > ESCAPE_RADIUS)
            && (r.status != Running ==> r.sat == sim.sat && r.trail == sim.trail))
      && (sim.status == Running && r.status == Running ==>
            Norm2(sim.sat.pos) > 0.0
            && r.sat.vel == Add(sim.sat.vel, Gravity(m, sim.sat.pos))
            && r.sat.pos == Add(sim.sat.pos, r.sat.vel)
            && Norm2(Gravity(m, sim.sat.pos)) == Sq(EARTH_MASS / Norm2(sim.sat.pos)))
      && (|sim.trail| <= ORBIT_TRAIL_LIMIT + 1 ==> |r.trail| <= ORBIT_TRAIL_LIMIT + 1)
  {
    if sim.status == Running && CRASH_RADIUS <= Length(m, sim.sat.pos) <= ESCAPE_RADIUS {
      FarFromCentre(m, sim.sat.pos);
      InverseSquare(m, sim.sat.pos);
    }
  }

  /** `launchOrbitSim`'s initial velocity: `speed` at `angle` degrees from
      the y axis. */
  function LaunchVelocity(m: MathLib, p: GS.OrbitParams): Vec {
    var rad := (p.angle * PI) / 180.0;
    Vec(p.speed * m.sin(rad), p.speed * m.cos(rad))
  }

  /** With `sin^2 + cos^2 = 1` the launch speed is the configured speed, and
      at angle 0 the launch is the tangential velocity `resetOrbitSim` sets. */
  lemma LaunchSpeed(m: MathLib, p: GS.OrbitParams)
    requires Sq(m.sin((p.angle * PI) / 180.0)) + Sq(m.cos((p.angle * PI) / 180.0)) == 1.0
    ensures Norm2(LaunchVelocity(m, p)) == Sq(p.speed)
    ensures p.angle == 0.0 && m.sin(0.0) == 0.0 && m.cos(0.0) == 1.0 ==> LaunchVelocity(m, p) == Vec(0.0, p.speed)
  {
    var rad := (p.angle * PI) / 180.0;
    SqMul(p.speed, m.sin(rad));
    SqMul(p.speed, m.cos(rad));
    assert Sq(p.speed) * Sq(m.sin(rad)) + Sq(p.speed) * Sq(m.cos(rad))
        == Sq(p.speed) * (Sq(m.sin(rad)) + Sq(m.cos(rad)));
  }

  function PresetDistance(kind: Preset): real {
    match kind
    case Circular => 250.0
    case Elliptical => 200.0
    case EscapeOrbit => 200.0
    case Crash => 300.0
  }

  /** `applyPreset`'s `(d, s, a)` as a full orbit patch; `fixed2` is
      `Number(s.toFixed(2))`. */
  function PresetPatch(m: MathLib, kind: Preset, fixed2: real -> real): GS.OrbitPatch {
    var d := PresetDistance(kind);
    var s := match kind
      case Circular => m.sqrt(EARTH_MASS / d)
      case Elliptical => m.sqrt(EARTH_MASS / d) * 1.15
      case EscapeOrbit => m.sqrt((2.0 * EARTH_MASS) / d) + 0.5
      case Crash => 1.0;
    var a := if kind == Crash then -45.0 else 0.0;
    GS.OrbitPatch(GS.Some(fixed2(s)), GS.Some(d), GS.Some(a))
  }

  /** A preset names all three parameters, so whatever was set before is
      overridden: the distance and angle become the preset's own. */
  lemma PresetOverridesAll(m: MathLib, kind: Preset, fixed2: real -> real, p: GS.OrbitParams, q: GS.OrbitParams)
    ensures GS.MergeOrbit(p, PresetPatch(m, kind, fixed2)) == GS.MergeOrbit(q, PresetPatch(m, kind, fixed2))
    ensures GS.MergeOrbit(p, PresetPatch(m, kind, fixed2)).distance == PresetDistance(kind)
    ensures GS.MergeOrbit(p, PresetPatch(m, kind, fixed2)).angle == (if kind == Crash then -45.0 else 0.0)
  {}

  // ----- Solar tick -----

  /** A body orbits only when its orbit speed is positive; the Sun (speed 0) never turns. */
  function Spin(b: Body): (r: Body)
    ensures r.name == b.name && r.radius == b.radius && r.orbitRadius == b.orbitRadius && r.orbitSpeed == b.orbitSpeed
    ensures b.orbitSpeed <= 0.0 ==> r == b
    ensures b.orbitSpeed > 0.0 ==> r.angle > b.angle
  {
    if b.orbitSpeed > 0.0 then b.(angle := b.angle + b.orbitSpeed) else b
  }

  /** A belt rock advances along its orbit and spins; its position is
      recomputed from the new angle. */
  function RollRock(m: MathLib, k: Rock): Rock {
    var a := k.angle + k.orbitSpeed;
    k.(angle := a, rotation := k.rotation + k.rotationSpeed,
       pos := Vec(m.cos(a) * k.orbitRadius, m.sin(a) * k.orbitRadius))
  }

  /** With `sin^2 + cos^2 = 1` a rock stays on its circle of radius `orbitRadius`. */
  lemma RockStaysOnOrbit(m: MathLib, k: Rock)
    requires Sq(m.cos(k.angle + k.orbitSpeed)) + Sq(m.sin(k.angle + k.orbitSpeed)) == 1.0
    ensures Norm2(RollRock(m, k).pos) == Sq(k.orbitRadius)
  {
    var a := k.angle + k.orbitSpeed;
    SqMul(m.cos(a), k.orbitRadius);
    SqMul(m.sin(a), k.orbitRadius);
    assert Sq(m.cos(a)) * Sq(k.orbitRadius) + Sq(m.sin(a)) * Sq(k.orbitRadius)
        == (Sq(m.cos(a)) + Sq(m.sin(a))) * Sq(k.orbitRadius);
  }

  /** The `bodiesRef.current.forEach` that turns every orbiting body. */
  method SpinBodies(bs0: seq<Body>) returns (bs: seq<Body>)
    ensures |bs| == |bs0|
    ensures forall i :: 0 <= i < |bs| ==> bs[i] == Spin(bs0[i])
  {
    bs := bs0;
    var i := 0;
    while i < |bs|
      invariant 0 <= i <= |bs| && |bs| == |bs0|
      invariant forall j :: 0 <= j < i ==> bs[j] == Spin(bs0[j])
      invariant forall j :: i <= j < |bs| ==> bs[j] == bs0[j]
    {
      if bs[i].orbitSpeed > 0.0 {
        bs := bs[i := bs[i].(angle := bs[i].angle + bs[i].orbitSpeed)];
      }
      i := i + 1;
    }
  }

  /** The `asteroidsRef.current.forEach` that moves the belt. */
  method RollRocks(m: MathLib, rs0: seq<Rock>) returns (rs: seq<Rock>)
    ensures |rs| == |rs0|
    ensures forall i :: 0 <= i < |rs| ==> rs[i] == RollRock(m, rs0[i])
  {
    rs := rs0;
    var i := 0;
    while i < |rs|
      invariant 0 <= i <= |rs| && |rs| == |rs0|
      invariant forall j :: 0 <= j < i ==> rs[j] == RollRock(m, rs0[j])
      invariant forall j :: i <= j < |rs| ==> rs[j] == rs0[j]
    {
      var k := rs[i];
      var a := k.angle + k.orbitSpeed;
      k := k.(angle := a, rotation := k.rotation + k.rotationSpeed);
      k := k.(pos := Vec(m.cos(k.angle) * k.orbitRadius, m.sin(k.angle) * k.orbitRadius));
      rs := rs[i := k];
      i := i + 1;
    }
  }

  /** The solar recharge per frame at distance `d` from the Sun: 0.02 from
      200 out, otherwise `max(0.1, (200 - d) / 400)`, so at most 0.5. */
  function RechargeRate(d: real): (r: real)
    ensures SUN_ZONE <= d ==> r == BASE_RECHARGE
    ensures d < SUN_ZONE ==> 0.1 <= r && (SUN_ZONE - d) / 400.0 <= r
    ensures 0.0 <= d ==> BASE_RECHARGE <= r <= 0.5
  {
    if d < SUN_ZONE then Max(0.1, (SUN_ZONE - d) / 400.0) else BASE_RECHARGE
  }

  /** The ship's solar frame: friction, the clamp to `SPEED_LIMIT`, the move,
      the trail (a point only when the pre-clamp speed exceeds 0.5) and the
      recharge measured at the new position. */
  function SolarShip(m: MathLib, s: Ship): Ship {
    var v := Scale(s.vel, SHIP_FRICTION);
    var speed := Length(m, v);
    var vel := if speed > SPEED_LIMIT then Scale(v, SPEED_LIMIT / speed) else v;
    var pos := Add(s.pos, vel);
    s.(pos := pos, vel := vel,
       trail := PushTrail(s.trail, TRAIL_LIMIT, pos, speed > 0.5),
       fuel := Min(MAX_FUEL, s.fuel + RechargeRate(Length(m, pos))))
  }

  /** After friction, a speed above `SPEED_LIMIT` is brought to exactly that
      bound and a lower one is kept; the ship then moves by its new velocity;
      the trail never exceeds 101 points and gains the new position exactly
      when the speed exceeds 0.5; and the fuel, in [0, 100], never falls and
      rises whenever it is below 100. */
  lemma SolarShipFacts(m: MathLib, s: Ship)
    requires ExactSqrt(m)
    ensures var r := SolarShip(m, s); var v := Scale(s.vel, SHIP_FRICTION);
      && Norm2(r.vel) <= Sq(SPEED_LIMIT)
      && (Norm2(v) > Sq(SPEED_LIMIT) ==> Norm2(r.vel) == Sq(SPEED_LIMIT))
      && (Norm2(v) <= Sq(SPEED_LIMIT) ==> r.vel == v)
      && r.pos == Add(s.pos, r.vel)
      && r.rotation == s.rotation && r.thrusting == s.thrusting
      && (|s.trail| <= TRAIL_LIMIT + 1 ==> |r.trail| <= TRAIL_LIMIT + 1)
      && (Norm2(v) > Sq(0.5) ==> |r.trail| > 0 && r.trail[|r.trail| - 1] == r.pos)
      && (Norm2(v) <= Sq(0.5) ==> |r.trail| <= |s.trail| && r.trail == s.trail[|s.trail| - |r.trail|..])
      && (0.0 <= s.fuel <= MAX_FUEL ==> s.fuel <= r.fuel <= MAX_FUEL && (s.fuel < MAX_FUEL ==> s.fuel < r.fuel))
  {
    var v := Scale(s.vel, SHIP_FRICTION);
    SpeedCap(m, v);
    var pos := Add(s.pos, SolarShip(m, s).vel);
    SqNonNegative(pos.x);
    SqNonNegative(pos.y);
  }

  /** The clamp to `SPEED_LIMIT`: a faster velocity is rescaled to exactly
      that speed and a slower one is kept; the trail test `speed > 0.5` is a
      test on the squared speed. */
  lemma SpeedCap(m: MathLib, v: Vec)
    requires ExactSqrt(m)
    ensures var speed := Length(m, v);
      var vel := if speed > SPEED_LIMIT then Scale(v, SPEED_LIMIT / speed) else v;
      && Norm2(vel) <= Sq(SPEED_LIMIT)
      && (Norm2(v) > Sq(SPEED_LIMIT) ==> Norm2(vel) == Sq(SPEED_LIMIT))
      && (Norm2(v) <= Sq(SPEED_LIMIT) ==> vel == v)
      && (speed > 0.5 <==> Norm2(v) > Sq(0.5))
  {
    var speed := Length(m, v);
    SqNonNegative(v.x);
    SqNonNegative(v.y);
    assert 0.0 <= speed && Sq(speed) == Norm2(v);
    SqrtBelow(m, Norm2(v), SPEED_LIMIT);
    SqrtBelow(m, Norm2(v), 0.5);
    if speed > SPEED_LIMIT {
      RescaleNorm(v, speed, SPEED_LIMIT);
    } else {
      SquareMonotone(speed, SPEED_LIMIT);
    }
    if speed <= 0.5 {
      SquareMonotone(speed, 0.5);
    }
  }

  /** The camera closes 10% of its gap to the ship each frame. */
  function Follow(camera: Vec, target: Vec): (r: Vec)
    ensures Sub(r, target) == Scale(Sub(camera, target), 0.9)
  {
    Vec(camera.x + (target.x - camera.x) * 0.1, camera.y + (target.y - camera.y) * 0.1)
  }

  function BodyDistance(m: MathLib, b: Body, p: Vec): real { Length(m, Sub(BodyPos(m, b), p)) }

  /** Within the scan range of `b`: closer than `300 + radius`. */
  predicate InScanRange(m: MathLib, b: Body, p: Vec) { BodyDistance(m, b, p) < SCAN_RANGE + b.radius }

  /** The scan's `(nearest, minDist)` after the bodies of `bs`, in order: a
      body becomes the answer when it is closer than the running `minDist`
      plus its own radius, and its distance becomes the new `minDist`. */
  function Scan(m: MathLib, bs: seq<Body>, p: Vec): (GS.Option<string>, real) {
    if |bs| == 0 then (GS.None, SCAN_RANGE)
    else
      var prev := Scan(m, bs[..|bs| - 1], p);
      var b := bs[|bs| - 1];
      var d := BodyDistance(m, b, p);
      if d < prev.1 + b.radius then (GS.Some(b.name), d) else prev
  }

  /** The scan answers nothing exactly when no body is within its scan
      range, and otherwise names one of the bodies scanned. */
  lemma {:induction false} ScanNoneIff(m: MathLib, bs: seq<Body>, p: Vec)
    ensures Scan(m, bs, p).0.None? ==> Scan(m, bs, p).1 == SCAN_RANGE
    ensures Scan(m, bs, p).0.None? <==> forall i :: 0 <= i < |bs| ==> !InScanRange(m, bs[i], p)
    ensures Scan(m, bs, p).0.Some? ==> exists i :: 0 <= i < |bs| && bs[i].name == Scan(m, bs, p).0.value
  {
    if |bs| > 0 {
      var init := bs[..|bs| - 1];
      ScanNoneIff(m, init, p);
      assert forall i :: 0 <= i < |init| ==> init[i] == bs[i];
      var prev := Scan(m, init, p);
      if prev.0.Some? {
        var j :| 0 <= j < |init| && init[j].name == prev.0.value;
        assert bs[j].name == prev.0.value;
        var k :| 0 <= k < |init| && InScanRange(m, init[k], p);
        assert InScanRange(m, bs[k], p);
      }
    }
  }

  /** Two bodies on the positive x axis, seen from the centre: the first is
      in range and nearer, yet the scan as written names the second, which
      is out of its own range, because `minDist` has been relaxed to the
      first body's distance before the second's radius is added to it. */
  lemma ScanPicksOutOfRange(m: MathLib)
    requires ExactSqrt(m) && m.cos(0.0) == 1.0 && m.sin(0.0) == 0.0
    ensures var a := Body("A", 60.0, 350.0, 0.0, 0.0);
            var b := Body("B", 10.0, 355.0, 0.0, 0.0);
      && InScanRange(m, a, Zero()) && !InScanRange(m, b, Zero())
      && BodyDistance(m, a, Zero()) < BodyDistance(m, b, Zero())
      && Scan(m, [a, b], Zero()).0 == GS.Some("B")
  {
    var a := Body("A", 60.0, 350.0, 0.0, 0.0);
    var b := Body("B", 10.0, 355.0, 0.0, 0.0);
    DistanceAtAngleZero(m, a);
    DistanceAtAngleZero(m, b);
    assert [a, b][..1] == [a];
    assert [a][..0] == [];
    assert Scan(m, [a], Zero()) == (GS.Some("A"), 350.0);
  }

  /** A body at angle 0 lies on the positive x axis, its orbit radius away
      from the centre. */
  lemma DistanceAtAngleZero(m: MathLib, b: Body)
    requires ExactSqrt(m) && m.cos(0.0) == 1.0 && m.sin(0.0) == 0.0
    requires b.angle == 0.0 && 0.0 <= b.orbitRadius
    ensures BodyDistance(m, b, Zero()) == b.orbitRadius
  {
    assert Sub(BodyPos(m, b), Zero()) == Vec(b.orbitRadius, 0.0);
    assert Norm2(Vec(b.orbitRadius, 0.0)) == Sq(b.orbitRadius);
    SqrtOfSquare(m, b.orbitRadius);
  }

  /** How far the ship is from a body's surface; in scan range exactly when below 300. */
  function Clearance(m: MathLib, b: Body, p: Vec): (r: real)
    ensures r < SCAN_RANGE <==> InScanRange(m, b, p)
  {
    BodyDistance(m, b, p) - b.radius
  }

  /** The scan with `minDist` kept as a clearance: a body becomes the answer
      when its clearance is below the best so far, which starts at 300. */
  function NearestScan(m: MathLib, bs: seq<Body>, p: Vec): (GS.Option<string>, real) {
    if |bs| == 0 then (GS.None, SCAN_RANGE)
    else
      var prev := NearestScan(m, bs[..|bs| - 1], p);
      var b := bs[|bs| - 1];
      var d := BodyDistance(m, b, p);
      if d < prev.1 + b.radius then (GS.Some(b.name), d - b.radius) else prev
  }

  /** The corrected scan answers nothing exactly when no body is in range;
      otherwise it names a body that is in range and whose clearance is the
      least of all the bodies scanned. */
  lemma {:induction false} NearestScanFacts(m: MathLib, bs: seq<Body>, p: Vec)
    ensures NearestScan(m, bs, p).1 <= SCAN_RANGE
    ensures forall j :: 0 <= j < |bs| ==> NearestScan(m, bs, p).1 <= Clearance(m, bs[j], p)
    ensures NearestScan(m, bs, p).0.None? <==> forall i :: 0 <= i < |bs| ==> !InScanRange(m, bs[i], p)
    ensures NearestScan(m, bs, p).0.None? ==> NearestScan(m, bs, p).1 == SCAN_RANGE
    ensures NearestScan(m, bs, p).0.Some? ==>
      exists i :: (0 <= i < |bs|
        && bs[i].name == NearestScan(m, bs, p).0.value
        && NearestScan(m, bs, p).1 == Clearance(m, bs[i], p)
        && InScanRange(m, bs[i], p))
  {
    if |bs| > 0 {
      var init := bs[..|bs| - 1];
      NearestScanFacts(m, init, p);
      assert forall i :: 0 <= i < |init| ==> init[i] == bs[i];
      var prev := NearestScan(m, init, p);
      var last := |bs| - 1;
      var c := Clearance(m, bs[last], p);
      if c < prev.1 {
        assert NearestScan(m, bs, p) == (GS.Some(bs[last].name), c);
      } else {
        assert NearestScan(m, bs, p) == prev;
        if prev.0.Some? {
          var k :| 0 <= k < |init| && init[k].name == prev.0.value && prev.1 == Clearance(m, init[k], p)
            && InScanRange(m, init[k], p);
          assert bs[k] == init[k];
        } else {
          assert prev.1 == SCAN_RANGE;
        }
      }
    }
  }

  /** The `forEach` that finds the closest body, as written: the running
      `minDist` becomes the centre distance of the body just picked (see
      `ScanPicksOutOfRange` for what that lets through). */
  method ClosestBody(m: MathLib, bodies: seq<Body>, p: Vec) returns (nearest: GS.Option<string>)
    ensures nearest == Scan(m, bodies, p).0
    ensures nearest.None? <==> forall i :: 0 <= i < |bodies| ==> !InScanRange(m, bodies[i], p)
    ensures nearest.Some? ==> exists i :: 0 <= i < |bodies| && bodies[i].name == nearest.value
  {
    nearest := GS.None;
    var minDist := SCAN_RANGE;
    var i := 0;
    while i < |bodies|
      invariant 0 <= i <= |bodies|
      invariant (nearest, minDist) == Scan(m, bodies[..i], p)
    {
      assert bodies[..i + 1][..i] == bodies[..i];
      var b := bodies[i];
      var d := Length(m, Sub(BodyPos(m, b), p));
      if d < minDist + b.radius {
        nearest := GS.Some(b.name);
        minDist := d;
      }
      i := i + 1;
    }
    assert bodies[..|bodies|] == bodies;
    ScanNoneIff(m, bodies, p);
  }

  /** The camera-shake decay: 10% off while above 0.1, then exactly 0. */
  function DecayedShake(v: real): (r: real)
    ensures 0.0 <= v ==> 0.0 <= r <= v
    ensures 0.0 < v ==> r < v
    ensures v <= 0.1 ==> r == 0.0
  {
    if v > 0.1 then v * 0.9 else 0.0
  }

  /** Manual input in solar mode with the autopilot on switches it off. */
  predicate Disengages(st: GS.State, input: Input) {
    ManualMode(st.gameMode) && input.dir != Zero() && st.gameMode == GS.Solar && st.autopilotActive
  }

  /** The ship after the steering part of a frame: manual control on a
      non-zero input, else the autopilot towards its target when it is on
      and a body of that name exists, else the thruster off; only in solar
      and arcade mode. */
  function SteerShip(m: MathLib, st: GS.State, input: Input, s: Ship, bodies: seq<Body>,
                     target: GS.Option<string>): Ship {
    if !ManualMode(st.gameMode) then s
    else if input.dir != Zero() then ManualShip(m, s, input.dir, input.mag, st.gameMode == GS.Arcade)
    else if st.gameMode == GS.Solar && st.autopilotActive && target.Some? then
      (match FindBody(bodies, target.value)
       case Some(b) => AutopilotShip(m, s, b)
       case None => s)
    else s.(thrusting := false)
  }

  /** Steering in cases: nothing outside solar and arcade mode; manual
      control on a non-zero input; with no input, the autopilot's frame when
      it is on and its target names a body, no change when the name is
      unknown, and otherwise the thruster off. */
  lemma SteerShipCases(m: MathLib, st: GS.State, input: Input, s: Ship, bodies: seq<Body>, target: GS.Option<string>)
    ensures var r := SteerShip(m, st, input, s, bodies, target);
      && (!ManualMode(st.gameMode) ==> r == s)
      && (ManualMode(st.gameMode) && input.dir != Zero() ==>
            r == ManualShip(m, s, input.dir, input.mag, st.gameMode == GS.Arcade))
      && (ManualMode(st.gameMode) && input.dir == Zero() && st.gameMode == GS.Solar && st.autopilotActive
          && target.Some? ==>
            var found := FindBody(bodies, target.value);
            (found.Some? ==> r == AutopilotShip(m, s, found.value)) && (found.None? ==> r == s))
      && (ManualMode(st.gameMode) && input.dir == Zero()
          && !(st.gameMode == GS.Solar && st.autopilotActive && target.Some?) ==>
            r == s.(thrusting := false))
  {}

  /** A solar frame from `ship0`: the ship flies `SolarShip`, the camera
      follows it, the bodies spin, the belt rolls, and the closest body in
      range is dispatched when it changed. */
  ghost predicate SolarStep(m: MathLib, st: GS.State, ship0: Ship, ship: Ship, camera0: Vec, camera: Vec,
                            bodies0: seq<Body>, bodies: seq<Body>, rocks0: seq<Rock>, rocks: seq<Rock>,
                            acts: seq<GS.Action>)
  {
    && ship == SolarShip(m, ship0)
    && camera == Follow(camera0, ship.pos)
    && acts == (if Scan(m, bodies, ship.pos).0 != st.closestBody then [GS.SetClosestBody(Scan(m, bodies, ship.pos).0)] else [])
    && |bodies| == |bodies0| && (forall i :: 0 <= i < |bodies| ==> bodies[i] == Spin(bodies0[i]))
    && |rocks| == |rocks0| && (forall i :: 0 <= i < |rocks| ==> rocks[i] == RollRock(m, rocks0[i]))
  }

  /** An arcade frame from `ship0`: the ship drifts unless the game is
      over, a crash into the asteroid `pool` stops its thrust, and the
      score gain and the crash are dispatched. */
  ghost predicate ArcadeStep(m: MathLib, st: GS.State, ship0: Ship, ship: Ship, width: real, height: real,
                             crash: bool, gain: int, pool: seq<Arcade.Asteroid>, acts: seq<GS.Action>)
    requires 0.0 <= width && 0.0 <= height
  {
    && ship.pos == (if st.arcadeGameOver then ship0.pos else ArcadeDrift(ship0, width, height).pos)
    && ship.thrusting == (if crash then false else ship0.thrusting)
    && (crash <==> Arcade.ShipCrash(m, ship.pos, st.arcadeGameOver, pool))
    && acts == (if 0 < gain then [GS.SetArcadeScore(st.arcadeScore + gain)] else [])
               + (if crash then [GS.SetArcadeGameOver(true)] else [])
  }

  /** The Raiden ship fires on space, `f` or enter, or on an input above
      0.1. */
  predicate RaidenFires(keys: set<string>, input: Input) {
    " " in keys || "f" in keys || "enter" in keys || input.mag > 0.1
  }

  /** The Raiden engine over one frame: `updatePhysics` from `s0` with the
      frame's input and fire button gives `s`. */
  ghost predicate RaidenRun(m: MathLib, s0: Raiden.Snapshot, s: Raiden.Snapshot, width: real, height: real,
                            keys: set<string>, input: Input, dice: Raiden.Dice)
  {
    s == Raiden.PhysicsNext(m, s0, width, height, input.dir.x, input.dir.y, RaidenFires(keys, input), dice)
  }

  /** The arcade engine over one frame, from the pools `bullets0` and
      `roids0`, the counter `id0` and the shot clock `last0`: a nose bullet
      joins when space is held, the game is not over and 250 ms have passed;
      the engine's physics (`Arcade.PhysicsNext`) gives the new bullets, the
      field `pool` and the points `gain`; and an emptied field of a running
      game gets a new wave of `WaveSize` asteroids at the first acceptable
      samples. */
  ghost predicate ArcadeRun(m: MathLib, st: GS.State, ship0: Ship, fire: bool, width: real, height: real, now: int,
                            draws: int -> Arcade.AsteroidDraw, samples: seq<Vec>,
                            bullets0: seq<Arcade.Bullet>, roids0: seq<Arcade.Asteroid>, id0: int, last0: int,
                            bullets: seq<Arcade.Bullet>, roids: seq<Arcade.Asteroid>, id: int, last: int,
                            gain: int, pool: seq<Arcade.Asteroid>)
    requires 0.0 <= width && 0.0 <= height
  {
    var shoots := fire && !st.arcadeGameOver && now - last0 >= Arcade.FIRE_INTERVAL;
    var fired := if shoots then bullets0 + [Arcade.NoseBullet(m, id0, ship0.pos, ship0.rotation, ship0.vel)] else bullets0;
    var r := Arcade.PhysicsNext(m, fired, roids0, if shoots then id0 + 1 else id0, width, height, draws);
    && last == (if shoots then now else last0)
    && bullets == r.bullets && pool == r.roids && gain == r.gain
    && (|pool| == 0 && !st.arcadeGameOver ==>
          && WaveSize(st.arcadeScore) <= |Arcade.Accepted(samples, width, height)|
          && roids == Arcade.Wave(m, r.nextId, Arcade.Accepted(samples, width, height)[..WaveSize(st.arcadeScore)], draws)
          && id == r.nextId + WaveSize(st.arcadeScore))
    && (0 < |pool| || st.arcadeGameOver ==> roids == pool && id == r.nextId)
  }

  // ----- The host -----

  class Host {
    var ship: Ship
    var bodies: seq<Body>
    var rocks: seq<Rock>
    var camera: Vec
    var shake: real
    /** `autopilotTargetRef`. */
    var target: GS.Option<string>
    var sim: OrbitSim

    /** Fuel in [0, 100], both trails within their caps, no negative shake. */
    ghost predicate Valid()
      reads this
    {
      && 0.0 <= ship.fuel <= MAX_FUEL
      && |ship.trail| <= TRAIL_LIMIT + 1
      && |sim.trail| <= ORBIT_TRAIL_LIMIT + 1
      && 0.0 <= shake
    }

    /** The refs' initial values; the bodies and belt come from the tables
        and the random draws made at start-up. */
    constructor (bodies0: seq<Body>, rocks0: seq<Rock>)
      ensures Valid()
      ensures ship == Ship(Vec(800.0, 0.0), Vec(0.0, 2.0), 0.0, false, [], MAX_FUEL)
      ensures bodies == bodies0 && rocks == rocks0 && camera == Zero() && shake == 0.0 && target == GS.None
      ensures sim == OrbitSim(Satellite(Vec(250.0, 0.0), Vec(0.0, 3.0)), [], Ready)
    {
      ship := Ship(Vec(800.0, 0.0), Vec(0.0, 2.0), 0.0, false, [], MAX_FUEL);
      bodies := bodies0;
      rocks := rocks0;
      camera := Zero();
      shake := 0.0;
      target := GS.None;
      sim := OrbitSim(Satellite(Vec(250.0, 0.0), Vec(0.0, 3.0)), [], Ready);
    }

    /** Manual control with a non-zero input: manual input in solar mode
        switches the autopilot off and clears its target. */
    method Manual(m: MathLib, st: GS.State, input: Input) returns (acts: seq<GS.Action>)
      requires Valid() && 0.0 <= input.mag
      modifies this
      ensures Valid()
      ensures ship == ManualShip(m, old(ship), input.dir, input.mag, st.gameMode == GS.Arcade)
      ensures st.gameMode == GS.Solar && st.autopilotActive ==> target == GS.None && acts == [GS.SetAutopilotAction(false)]
      ensures !(st.gameMode == GS.Solar && st.autopilotActive) ==> target == old(target) && acts == []
      ensures bodies == old(bodies) && rocks == old(rocks) && camera == old(camera)
      ensures shake == old(shake) && sim == old(sim)
    {
      acts := [];
      if st.gameMode == GS.Solar && st.autopilotActive {
        acts := [GS.SetAutopilotAction(false)];
        target := GS.None;
      }
      var s := ship;
      ManualShipFacts(m, s, input.dir, input.mag, st.gameMode == GS.Arcade);
      var diff := WrapAngle(m.atan2(input.dir.y, input.dir.x) - s.rotation);
      var rot := s.rotation + diff * 0.15;
      s := s.(rotation := rot);
      var canThrust := st.gameMode == GS.Arcade || s.fuel > 0.0;
      if canThrust {
        s := s.(vel := Add(s.vel, Scale(Heading(m, rot), input.mag * SHIP_ACCELERATION)),
                thrusting := true);
        if st.gameMode != GS.Arcade {
          s := s.(fuel := Max(0.0, s.fuel - 0.1 * input.mag));
        }
      } else {
        s := s.(thrusting := false);
      }
      ship := s;
    }

    /** One autopilot frame towards `b`. */
    method Autopilot(m: MathLib, b: Body)
      requires Valid()
      modifies this
      ensures Valid()
      ensures ship == AutopilotShip(m, old(ship), b)
      ensures bodies == old(bodies) && rocks == old(rocks) && camera == old(camera)
      ensures shake == old(shake) && sim == old(sim) && target == old(target)
    {
      AutopilotShipFacts(m, ship, b);
      var approaching := Approaching(m, ship, b);
      var a := Correction(m, ship, b);
      var d := Sub(BodyPos(m, b), ship.pos);
      var diff := WrapAngle(m.atan2(d.y, d.x) - ship.rotation);
      var rot := ship.rotation + diff * 0.1;
      ship := ship.(rotation := rot);
      if approaching {
        if ship.fuel > 0.0 {
          ship := ship.(vel := Add(ship.vel, Scale(Heading(m, rot), SHIP_ACCELERATION * 0.8)),
                        thrusting := true,
                        fuel := Max(0.0, ship.fuel - 0.08));
        } else {
          ship := ship.(thrusting := false);
        }
      } else {
        ship := ship.(vel := Add(ship.vel, a));
        var mag := Length(m, a);
        var burn := mag > 0.05 && ship.fuel > 0.0;
        ship := ship.(thrusting := burn);
        if burn {
          ship := ship.(fuel := Max(0.0, ship.fuel - 0.03 * mag));
        }
      }
    }

    /** Manual control and autopilot, in solar and arcade mode only. With no
        input, an engaged autopilot flies to its target if a body of that
        name exists and changes nothing otherwise; with no autopilot the
        thruster is off. */
    method Steer(m: MathLib, st: GS.State, input: Input) returns (acts: seq<GS.Action>)
      requires Valid() && 0.0 <= input.mag
      modifies this
      ensures Valid()
      ensures bodies == old(bodies) && rocks == old(rocks) && camera == old(camera)
      ensures shake == old(shake) && sim == old(sim)
      ensures ship == SteerShip(m, st, input, old(ship), old(bodies), old(target))
      ensures acts == (if Disengages(st, input) then [GS.SetAutopilotAction(false)] else [])
      ensures target == (if Disengages(st, input) then GS.None else old(target))
    {
      acts := [];
      if !ManualMode(st.gameMode) {
        return;
      }
      if input.dir != Zero() {
        acts := Manual(m, st, input);
      } else if st.gameMode == GS.Solar && st.autopilotActive && target.Some? {
        var found := FindBody(bodies, target.value);
        if found.Some? {
          Autopilot(m, found.value);
        }
      } else {
        ship := ship.(thrusting := false);
      }
    }
  
    /** The first half of the arcade frame: fire on space, drift and wrap
        the ship unless the game is over, and run the engine. */
    method FlyArcade(m: MathLib, st: GS.State, arcade: Arcade.ArcadeEngine, fire: bool,
                     width: real, height: real, now: int, draws: int -> Arcade.AsteroidDraw)
      returns (collision: bool, gain: int, ghost fired: seq<Arcade.Bullet>, ghost firedId: int)
      requires Valid() && arcade.Valid() && 0.0 <= width && 0.0 <= height
      modifies this, arcade
      ensures Valid() && arcade.Valid()
      ensures var shoots := fire && !st.arcadeGameOver && now - old(arcade.lastShotTime) >= Arcade.FIRE_INTERVAL;
        && fired == (if shoots
          then old(arcade.bullets) + [Arcade.NoseBullet(m, old(arcade.idCounter), old(ship).pos, old(ship).rotation, old(ship).vel)]
          else old(arcade.bullets))
        && firedId == (if shoots then old(arcade.idCounter) + 1 else old(arcade.idCounter))
        && arcade.lastShotTime == (if shoots then now else old(arcade.lastShotTime))
      ensures var r := Arcade.PhysicsNext(m, fired, old(arcade.asteroids), firedId, width, height, draws);
        arcade.bullets == r.bullets && arcade.asteroids == r.roids && arcade.idCounter == r.nextId && gain == r.gain
      ensures collision <==> Arcade.ShipCrash(m, ship.pos, st.arcadeGameOver, arcade.asteroids)
      ensures ship == (if st.arcadeGameOver then old(ship) else ArcadeDrift(old(ship), width, height))
      ensures bodies == old(bodies) && rocks == old(rocks) && camera == old(camera)
      ensures shake == old(shake) && sim == old(sim) && target == old(target)
    {
      if fire {
        arcade.FireBullet(m, ship.pos, ship.rotation, ship.vel, st.arcadeGameOver, now);
      }
      fired, firedId := arcade.bullets, arcade.idCounter;
      if !st.arcadeGameOver {
        ship := ArcadeDrift(ship, width, height);
      }
      ghost var destroyed;
      collision, gain, destroyed := arcade.UpdatePhysics(m, width, height, ship.pos, st.arcadeGameOver, draws);
    }

    /** The arcade frame's reports: the points gained shake the camera by 5
        and are dispatched; a crash stops the thruster, shakes it by 15 and
        ends the game. */
    method ReportArcade(st: GS.State, collision: bool, gain: int) returns (acts: seq<GS.Action>)
      requires Valid()
      modifies this
      ensures Valid()
      ensures ship == old(ship).(thrusting := if collision then false else old(ship).thrusting)
      ensures shake == (if collision then 15.0 else if 0 < gain then 5.0 else old(shake))
      ensures acts == (if 0 < gain then [GS.SetArcadeScore(st.arcadeScore + gain)] else [])
                    + (if collision then [GS.SetArcadeGameOver(true)] else [])
      ensures bodies == old(bodies) && rocks == old(rocks) && camera == old(camera)
      ensures sim == old(sim) && target == old(target)
    {
      acts := [];
      if 0 < gain {
        acts := acts + [GS.SetArcadeScore(st.arcadeScore + gain)];
        shake := 5.0;
      }
      if collision {
        acts := acts + [GS.SetArcadeGameOver(true)];
        ship := ship.(thrusting := false);
        shake := 15.0;
      }
    }

    /** The arcade frame: fly (see `FlyArcade`), report points and a crash,
        and send a new wave (sized by the score of this frame's snapshot)
        into an empty field. `pool` is the field the engine leaves before
        any new wave. */
    method ArcadeTick(m: MathLib, st: GS.State, arcade: Arcade.ArcadeEngine, fire: bool,
                      width: real, height: real, now: int,
                      draws: int -> Arcade.AsteroidDraw, samples: seq<Vec>)
      returns (acts: seq<GS.Action>, collision: bool, gain: int,
               ghost fired: seq<Arcade.Bullet>, ghost firedId: int, ghost cleared: bool, ghost pool: seq<Arcade.Asteroid>)
      requires Valid() && arcade.Valid() && 0.0 <= width && 0.0 <= height
      requires WaveSize(st.arcadeScore) <= |Arcade.Accepted(samples, width, height)|
      modifies this, arcade
      ensures Valid() && arcade.Valid()
      ensures var shoots := fire && !st.arcadeGameOver && now - old(arcade.lastShotTime) >= Arcade.FIRE_INTERVAL;
        && fired == (if shoots
          then old(arcade.bullets) + [Arcade.NoseBullet(m, old(arcade.idCounter), old(ship).pos, old(ship).rotation, old(ship).vel)]
          else old(arcade.bullets))
        && firedId == (if shoots then old(arcade.idCounter) + 1 else old(arcade.idCounter))
        && arcade.lastShotTime == (if shoots then now else old(arcade.lastShotTime))
      ensures var r := Arcade.PhysicsNext(m, fired, old(arcade.asteroids), firedId, width, height, draws);
        && arcade.bullets == r.bullets && pool == r.roids && gain == r.gain
        && (cleared && !st.arcadeGameOver ==>
              arcade.asteroids == Arcade.Wave(m, r.nextId, Arcade.Accepted(samples, width, height)[..WaveSize(st.arcadeScore)], draws)
              && arcade.idCounter == r.nextId + WaveSize(st.arcadeScore))
        && (!cleared || st.arcadeGameOver ==> arcade.asteroids == pool && arcade.idCounter == r.nextId)
      ensures cleared <==> |pool| == 0
      ensures collision <==> Arcade.ShipCrash(m, ship.pos, st.arcadeGameOver, pool)
      ensures !st.arcadeGameOver ==>
        ship.pos == ArcadeDrift(old(ship), width, height).pos && ship.vel == ArcadeDrift(old(ship), width, height).vel
      ensures !st.arcadeGameOver ==> 0.0 <= ship.pos.x <= width && 0.0 <= ship.pos.y <= height
      ensures st.arcadeGameOver ==> ship.pos == old(ship).pos && ship.vel == old(ship).vel
      ensures ship.fuel == old(ship).fuel && ship.trail == old(ship).trail && ship.rotation == old(ship).rotation
      ensures collision ==> !st.arcadeGameOver && !ship.thrusting && shake == 15.0
      ensures !collision ==> ship.thrusting == old(ship).thrusting
      ensures !collision && 0 < gain ==> shake == 5.0
      ensures !collision && gain <= 0 ==> shake == old(shake)
      ensures acts == (if 0 < gain then [GS.SetArcadeScore(st.arcadeScore + gain)] else [])
                    + (if collision then [GS.SetArcadeGameOver(true)] else [])
      ensures cleared && !st.arcadeGameOver ==> |arcade.asteroids| == WaveSize(st.arcadeScore)
      ensures bodies == old(bodies) && rocks == old(rocks) && camera == old(camera)
      ensures sim == old(sim) && target == old(target)
      ensures ArcadeRun(m, st, old(ship), fire, width, height, now, draws, samples,
                        old(arcade.bullets), old(arcade.asteroids), old(arcade.idCounter), old(arcade.lastShotTime),
                        arcade.bullets, arcade.asteroids, arcade.idCounter, arcade.lastShotTime, gain, pool)
    {
      collision, gain, fired, firedId := FlyArcade(m, st, arcade, fire, width, height, now, draws);
      pool := arcade.asteroids;
      acts := ReportArcade(st, collision, gain);
      cleared := |arcade.asteroids| == 0;
      if |arcade.asteroids| == 0 && !st.arcadeGameOver {
        arcade.SpawnAsteroids(m, WaveSize(st.arcadeScore), width, height, samples, draws);
      }
    }

    /** The orbit simulator's frame; `roll` is the frame's `Math.random()`. */
    method OrbitTick(m: MathLib, params: GS.OrbitParams, roll: real)
      requires Valid() && ExactSqrt(m)
      modifies this
      ensures Valid()
      ensures sim == OrbitNext(m, old(sim), params, roll)
      ensures ship == old(ship) && bodies == old(bodies) && rocks == old(rocks)
      ensures camera == old(camera) && shake == old(shake) && target == old(target)
    {
      OrbitStatusMachine(m, sim, params, roll);
      if sim.status == Ready {
        sim := sim.(sat := sim.sat.(pos := Vec(params.distance, 0.0)));
        sim := sim.(sat := sim.sat.(vel := Zero()));
      } else if sim.status == Running {
        var r := Length(m, sim.sat.pos);
        if r < CRASH_RADIUS {
          sim := sim.(status := Crashed);
        } else if r > ESCAPE_RADIUS {
          sim := sim.(status := Escaped);
        } else {
          FarFromCentre(m, sim.sat.pos);
          var a := Gravity(m, sim.sat.pos);
          sim := sim.(sat := sim.sat.(vel := Add(sim.sat.vel, a)));
          sim := sim.(sat := sim.sat.(pos := Add(sim.sat.pos, sim.sat.vel)));
          var trail := sim.trail;
          if |trail| > ORBIT_TRAIL_LIMIT {
            trail := trail[1..];
          }
          if roll > 0.1 {
            trail := trail + [sim.sat.pos];
          }
          sim := sim.(trail := trail);
        }
      }
    }

    /** `resetOrbitSim`: back to `ready` at `(distance, 0)` moving at
        `(0, speed)`, with an empty trail. */
    method ResetOrbitSim(params: GS.OrbitParams)
      requires Valid()
      modifies this
      ensures Valid()
      ensures sim == OrbitSim(Satellite(Vec(params.distance, 0.0), Vec(0.0, params.speed)), [], Ready)
      ensures ship == old(ship) && bodies == old(bodies) && rocks == old(rocks)
      ensures camera == old(camera) && shake == old(shake) && target == old(target)
    {
      sim := OrbitSim(Satellite(Vec(params.distance, 0.0), Vec(0.0, params.speed)), [], Ready);
    }

    /** `launchOrbitSim`: only from `ready`, placing the satellite at
        `(distance, 0)` with the launch velocity and starting it; the trail
        is kept. From any other status nothing changes. */
    method LaunchOrbitSim(m: MathLib, params: GS.OrbitParams)
      requires Valid()
      modifies this
      ensures Valid()
      ensures old(sim).status == Ready ==>
        sim == OrbitSim(Satellite(Vec(params.distance, 0.0), LaunchVelocity(m, params)), old(sim).trail, Running)
      ensures old(sim).status != Ready ==> sim == old(sim)
      ensures ship == old(ship) && bodies == old(bodies) && rocks == old(rocks)
      ensures camera == old(camera) && shake == old(shake) && target == old(target)
    {
      if sim.status != Ready {
        return;
      }
      var rad := (params.angle * PI) / 180.0;
      var vx := params.speed * m.sin(rad);
      var vy := params.speed * m.cos(rad);
      sim := sim.(sat := Satellite(Vec(params.distance, 0.0), Vec(vx, vy)));
      sim := sim.(status := Running);
    }

    /** `applyPreset`: dispatch the preset's parameters, return to `ready`,
        move the satellite to the preset distance on the x axis (its `y` and
        velocity are left as they were) and clear the trail. */
    method ApplyPreset(m: MathLib, kind: Preset, fixed2: real -> real) returns (acts: seq<GS.Action>)
      requires Valid()
      modifies this
      ensures Valid()
      ensures acts == [GS.SetOrbitParams(PresetPatch(m, kind, fixed2))]
      ensures sim.status == Ready && sim.trail == []
      ensures sim.sat == old(sim).sat.(pos := old(sim).sat.pos.(x := PresetDistance(kind)))
      ensures ship == old(ship) && bodies == old(bodies) && rocks == old(rocks)
      ensures camera == old(camera) && shake == old(shake) && target == old(target)
    {
      acts := [GS.SetOrbitParams(PresetPatch(m, kind, fixed2))];
      sim := sim.(status := Ready);
      sim := sim.(sat := sim.sat.(pos := sim.sat.pos.(x := PresetDistance(kind))));
      sim := sim.(trail := []);
    }

    /** The solar frame: orbit the bodies and the belt, fly and recharge the
        ship, follow it with the camera, and report the closest body only
        when it differs from the state's. */
    method SolarTick(m: MathLib, st: GS.State) returns (acts: seq<GS.Action>, nearest: GS.Option<string>)
      requires Valid() && ExactSqrt(m)
      modifies this
      ensures Valid()
      ensures |bodies| == |old(bodies)| && forall i :: 0 <= i < |bodies| ==> bodies[i] == Spin(old(bodies)[i])
      ensures |rocks| == |old(rocks)| && forall i :: 0 <= i < |rocks| ==> rocks[i] == RollRock(m, old(rocks)[i])
      ensures ship == SolarShip(m, old(ship))
      ensures old(ship).fuel <= ship.fuel
      ensures camera == Follow(old(camera), ship.pos)
      ensures nearest == Scan(m, bodies, ship.pos).0
      ensures nearest.None? <==> forall i :: 0 <= i < |bodies| ==> !InScanRange(m, bodies[i], ship.pos)
      ensures nearest.Some? ==> exists i :: 0 <= i < |bodies| && bodies[i].name == nearest.value
      ensures acts == (if nearest != st.closestBody then [GS.SetClosestBody(nearest)] else [])
      ensures shake == old(shake) && sim == old(sim) && target == old(target)
    {
      var bs := SpinBodies(bodies);
      bodies := bs;
      var rs := RollRocks(m, rocks);
      rocks := rs;
      SolarShipFacts(m, ship);
      ship := SolarShip(m, ship);
      camera := Follow(camera, ship.pos);
      nearest := ClosestBody(m, bodies, ship.pos);
      acts := [];
      if nearest != st.closestBody {
        acts := [GS.SetClosestBody(nearest)];
      }
    }

    /** The shake decay every frame ends with. */
    method DecayShake()
      requires Valid()
      modifies this
      ensures Valid()
      ensures shake == DecayedShake(old(shake))
      ensures ship == old(ship) && bodies == old(bodies) && rocks == old(rocks)
      ensures camera == old(camera) && sim == old(sim) && target == old(target)
    {
      if shake > 0.1 {
        shake := shake * 0.9;
      } else {
        shake := 0.0;
      }
    }

    /** An arcade frame after steering: `ArcadeTick`, then the shake decay. */
    method ArcadeFrame(m: MathLib, st: GS.State, arcade: Arcade.ArcadeEngine, width: real, height: real,
                       keys: set<string>, now: int, draws: int -> Arcade.AsteroidDraw, samples: seq<Vec>)
      returns (acts: seq<GS.Action>, ghost crash: bool, ghost gain: int, ghost pool: seq<Arcade.Asteroid>)
      requires Valid() && arcade.Valid() && 0.0 <= width && 0.0 <= height
      requires WaveSize(st.arcadeScore) <= |Arcade.Accepted(samples, width, height)|
      modifies this, arcade
      ensures Valid() && arcade.Valid()
      ensures ship.pos == (if st.arcadeGameOver then old(ship).pos else ArcadeDrift(old(ship), width, height).pos)
      ensures ship.thrusting == (if crash then false else old(ship).thrusting)
      ensures crash <==> Arcade.ShipCrash(m, ship.pos, st.arcadeGameOver, pool)
      ensures acts == (if 0 < gain then [GS.SetArcadeScore(st.arcadeScore + gain)] else [])
                      + (if crash then [GS.SetArcadeGameOver(true)] else [])
      ensures shake == DecayedShake(if crash then 15.0 else if 0 < gain then 5.0 else old(shake))
      ensures bodies == old(bodies) && rocks == old(rocks) && camera == old(camera)
      ensures sim == old(sim) && target == old(target)
      ensures ArcadeRun(m, st, old(ship), " " in keys, width, height, now, draws, samples,
                        old(arcade.bullets), old(arcade.asteroids), old(arcade.idCounter), old(arcade.lastShotTime),
                        arcade.bullets, arcade.asteroids, arcade.idCounter, arcade.lastShotTime, gain, pool)
    {
      var collision, points;
      ghost var fired, firedId, cleared;
      acts, collision, points, fired, firedId, cleared, pool := ArcadeTick(m, st, arcade, " " in keys, width, height, now, draws, samples);
      crash, gain := collision, points;
      DecayShake();
    }

    /** An orbit-simulator frame: `OrbitTick`, then the shake decay. */
    method OrbitFrame(m: MathLib, st: GS.State, roll: real)
      requires Valid() && ExactSqrt(m)
      modifies this
      ensures Valid()
      ensures sim == OrbitNext(m, old(sim), st.orbitParams, roll)
      ensures shake == DecayedShake(old(shake))
      ensures ship == old(ship) && bodies == old(bodies) && rocks == old(rocks)
      ensures camera == old(camera) && target == old(target)
    {
      OrbitTick(m, st.orbitParams, roll);
      DecayShake();
    }

    /** A Raiden frame: the engine's tick (firing on space, `f`, enter or an
        input above 0.1), its three reports, then the shake decay. */
    method RaidenFrame(m: MathLib, raiden: Raiden.RaidenEngine, width: real, height: real,
                       keys: set<string>, input: Input, dice: Raiden.Dice)
      returns (acts: seq<GS.Action>)
      requires Valid() && raiden.Valid() && 0.0 <= width && 0.0 <= height
      modifies this, raiden
      ensures Valid() && raiden.Valid()
      ensures acts == [GS.SetRaidenScore(raiden.state.score), GS.SetRaidenHp(raiden.state.player.hp),
                       GS.SetRaidenShield(raiden.state.player.shield)]
      ensures shake == DecayedShake(old(shake))
      ensures ship == old(ship) && bodies == old(bodies) && rocks == old(rocks)
      ensures camera == old(camera) && sim == old(sim) && target == old(target)
      ensures RaidenRun(m, Raiden.Snapshot(old(raiden.state), old(raiden.idCounter)),
                  Raiden.Snapshot(raiden.state, raiden.idCounter), width, height, keys, input, dice)
    {
      var shouldShoot := RaidenFires(keys, input);
      var report;
      ghost var fired, armed, hits, killed, survivors, left, clashed;
      report, fired, armed, hits, killed, survivors, left, clashed :=
        raiden.UpdatePhysics(m, width, height, input.dir.x, input.dir.y, input.mag, shouldShoot, dice);
      acts := [GS.SetRaidenScore(report.score), GS.SetRaidenHp(report.hp), GS.SetRaidenShield(report.shield)];
      DecayShake();
    }

    /** A solar frame: `SolarTick`, then the shake decay. */
    method SolarFrame(m: MathLib, st: GS.State) returns (acts: seq<GS.Action>)
      requires Valid() && ExactSqrt(m)
      modifies this
      ensures Valid()
      ensures ship == SolarShip(m, old(ship))
      ensures camera == Follow(old(camera), ship.pos)
      ensures acts == (if Scan(m, bodies, ship.pos).0 != st.closestBody then [GS.SetClosestBody(Scan(m, bodies, ship.pos).0)] else [])
      ensures |bodies| == |old(bodies)| && forall i :: 0 <= i < |bodies| ==> bodies[i] == Spin(old(bodies)[i])
      ensures |rocks| == |old(rocks)| && forall i :: 0 <= i < |rocks| ==> rocks[i] == RollRock(m, old(rocks)[i])
      ensures shake == DecayedShake(old(shake))
      ensures sim == old(sim) && target == old(target)
    {
      var nearest;
      acts, nearest := SolarTick(m, st);
      DecayShake();
    }

    /** A frame of any mode but arcade: the Raiden, orbit or solar frame. */
    method OtherFrame(m: MathLib, st: GS.State, raiden: Raiden.RaidenEngine, width: real, height: real,
                      keys: set<string>, input: Input, roll: real, dice: Raiden.Dice)
      returns (acts: seq<GS.Action>)
      requires Valid() && raiden.Valid() && ExactSqrt(m) && st.gameMode != GS.Arcade
      requires 0.0 <= width && 0.0 <= height
      modifies this, raiden
      ensures Valid() && raiden.Valid()
      ensures target == old(target)
      ensures st.gameMode == GS.Solar ==>
        SolarStep(m, st, old(ship), ship, old(camera), camera, old(bodies), bodies, old(rocks), rocks, acts)
      ensures shake == DecayedShake(old(shake))
      ensures st.gameMode == GS.Orbit ==> sim == OrbitNext(m, old(sim), st.orbitParams, roll)
      ensures st.gameMode != GS.Solar ==> bodies == old(bodies) && rocks == old(rocks) && camera == old(camera)
      ensures st.gameMode != GS.Orbit ==> sim == old(sim)
      ensures st.gameMode == GS.Orbit || st.gameMode == GS.Raiden ==> ship == old(ship)
      ensures st.gameMode == GS.Raiden ==>
        acts == [GS.SetRaidenScore(raiden.state.score), GS.SetRaidenHp(raiden.state.player.hp),
                 GS.SetRaidenShield(raiden.state.player.shield)]
      ensures st.gameMode == GS.Raiden ==>
        RaidenRun(m, Raiden.Snapshot(old(raiden.state), old(raiden.idCounter)),
                  Raiden.Snapshot(raiden.state, raiden.idCounter), width, height, keys, input, dice)
      ensures st.gameMode != GS.Raiden ==> raiden.state == old(raiden.state) && raiden.idCounter == old(raiden.idCounter)
      ensures st.gameMode == GS.Orbit ==> acts == []
    {
      if st.gameMode == GS.Raiden {
        acts := RaidenFrame(m, raiden, width, height, keys, input, dice);
      } else if st.gameMode == GS.Orbit {
        acts := [];
        OrbitFrame(m, st, roll);
      } else {
        acts := SolarFrame(m, st);
      }
    }

    /** The rest of the frame after steering: the current mode's physics
        and the shake decay, with the mode's dispatches in order. */
    method ModeStep(m: MathLib, st: GS.State, arcade: Arcade.ArcadeEngine, raiden: Raiden.RaidenEngine,
                    width: real, height: real, keys: set<string>, input: Input,
                    now: int, draws: int -> Arcade.AsteroidDraw, samples: seq<Vec>, roll: real, dice: Raiden.Dice)
      returns (acts: seq<GS.Action>, ghost crash: bool, ghost gain: int, ghost pool: seq<Arcade.Asteroid>)
      requires Valid() && arcade.Valid() && raiden.Valid() && ExactSqrt(m)
      requires 0.0 <= width && 0.0 <= height
      requires st.gameMode == GS.Arcade ==> WaveSize(st.arcadeScore) <= |Arcade.Accepted(samples, width, height)|
      modifies this, arcade, raiden
      ensures Valid() && arcade.Valid() && raiden.Valid()
      ensures target == old(target)
      ensures st.gameMode == GS.Solar ==>
        SolarStep(m, st, old(ship), ship, old(camera), camera, old(bodies), bodies, old(rocks), rocks, acts)
      ensures st.gameMode == GS.Arcade ==> ArcadeStep(m, st, old(ship), ship, width, height, crash, gain, pool, acts)
      ensures st.gameMode != GS.Arcade ==> !crash && gain == 0 && pool == []
      ensures shake == DecayedShake(if crash then 15.0 else if 0 < gain then 5.0 else old(shake))
      ensures st.gameMode == GS.Orbit ==> sim == OrbitNext(m, old(sim), st.orbitParams, roll)
      ensures st.gameMode != GS.Solar ==> bodies == old(bodies) && rocks == old(rocks) && camera == old(camera)
      ensures st.gameMode != GS.Orbit ==> sim == old(sim)
      ensures st.gameMode == GS.Orbit || st.gameMode == GS.Raiden ==> ship == old(ship)
      ensures st.gameMode == GS.Raiden ==>
        acts == [GS.SetRaidenScore(raiden.state.score), GS.SetRaidenHp(raiden.state.player.hp),
                 GS.SetRaidenShield(raiden.state.player.shield)]
      ensures st.gameMode == GS.Arcade ==>
        ArcadeRun(m, st, old(ship), " " in keys, width, height, now, draws, samples,
                  old(arcade.bullets), old(arcade.asteroids), old(arcade.idCounter), old(arcade.lastShotTime),
                  arcade.bullets, arcade.asteroids, arcade.idCounter, arcade.lastShotTime, gain, pool)
      ensures st.gameMode != GS.Arcade ==>
        && arcade.bullets == old(arcade.bullets) && arcade.asteroids == old(arcade.asteroids)
        && arcade.idCounter == old(arcade.idCounter) && arcade.lastShotTime == old(arcade.lastShotTime)
      ensures st.gameMode == GS.Raiden ==>
        RaidenRun(m, Raiden.Snapshot(old(raiden.state), old(raiden.idCounter)),
                  Raiden.Snapshot(raiden.state, raiden.idCounter), width, height, keys, input, dice)
      ensures st.gameMode != GS.Raiden ==> raiden.state == old(raiden.state) && raiden.idCounter == old(raiden.idCounter)
      ensures st.gameMode == GS.Orbit ==> acts == []
    {
      acts, crash, gain, pool := [], false, 0, [];
      if st.gameMode == GS.Arcade {
        acts, crash, gain, pool := ArcadeFrame(m, st, arcade, width, height, keys, now, draws, samples);
      } else {
        acts := OtherFrame(m, st, raiden, width, height, keys, input, roll, dice);
      }
    }

    /** One frame of `loop`: aggregate the input, steer, run the current
        mode's physics and decay the shake. The dispatches of the frame come
        back in order: the autopilot switch-off first, then the mode's.
        `crash`, `gain` and `pool` are the arcade frame's (nothing in other
        modes). */
    method Tick(m: MathLib, st: GS.State, arcade: Arcade.ArcadeEngine, raiden: Raiden.RaidenEngine,
                width: real, height: real, joystick: Vec, touch: GS.Option<Vec>, keys: set<string>,
                now: int, draws: int -> Arcade.AsteroidDraw, samples: seq<Vec>, roll: real, dice: Raiden.Dice)
      returns (acts: seq<GS.Action>, ghost crash: bool, ghost gain: int, ghost pool: seq<Arcade.Asteroid>,
               ghost input: Input, ghost steered: Ship, ghost first: seq<GS.Action>, ghost more: seq<GS.Action>)
      requires Valid() && arcade.Valid() && raiden.Valid() && ExactSqrt(m)
      requires 0.0 <= width && 0.0 <= height
      requires st.gameMode == GS.Arcade ==> WaveSize(st.arcadeScore) <= |Arcade.Accepted(samples, width, height)|
      modifies this, arcade, raiden
      ensures Valid() && arcade.Valid() && raiden.Valid()
      ensures input == Aggregate(m, joystick, touch, old(ship).pos, st.gameMode, keys)
      ensures steered == SteerShip(m, st, input, old(ship), old(bodies), old(target))
      ensures first == if Disengages(st, input) then [GS.SetAutopilotAction(false)] else []
      ensures target == (if Disengages(st, input) then GS.None else old(target))
      ensures acts == first + more
      ensures st.gameMode == GS.Solar ==>
        SolarStep(m, st, steered, ship, old(camera), camera, old(bodies), bodies, old(rocks), rocks, more)
      ensures st.gameMode == GS.Arcade ==> ArcadeStep(m, st, steered, ship, width, height, crash, gain, pool, more)
      ensures st.gameMode != GS.Arcade ==> !crash && gain == 0 && pool == []
      ensures shake == DecayedShake(if crash then 15.0 else if 0 < gain then 5.0 else old(shake))
      ensures st.gameMode == GS.Orbit ==> sim == OrbitNext(m, old(sim), st.orbitParams, roll)
      ensures st.gameMode != GS.Solar ==> bodies == old(bodies) && rocks == old(rocks) && camera == old(camera)
      ensures st.gameMode != GS.Orbit ==> sim == old(sim)
      ensures st.gameMode == GS.Orbit || st.gameMode == GS.Raiden ==> ship == old(ship)
      ensures st.gameMode == GS.Raiden ==>
        more == [GS.SetRaidenScore(raiden.state.score), GS.SetRaidenHp(raiden.state.player.hp),
                 GS.SetRaidenShield(raiden.state.player.shield)]
      ensures st.gameMode == GS.Arcade ==>
        ArcadeRun(m, st, steered, " " in keys, width, height, now, draws, samples,
                  old(arcade.bullets), old(arcade.asteroids), old(arcade.idCounter), old(arcade.lastShotTime),
                  arcade.bullets, arcade.asteroids, arcade.idCounter, arcade.lastShotTime, gain, pool)
      ensures st.gameMode != GS.Arcade ==>
        && arcade.bullets == old(arcade.bullets) && arcade.asteroids == old(arcade.asteroids)
        && arcade.idCounter == old(arcade.idCounter) && arcade.lastShotTime == old(arcade.lastShotTime)
      ensures st.gameMode == GS.Raiden ==>
        RaidenRun(m, Raiden.Snapshot(old(raiden.state), old(raiden.idCounter)),
                  Raiden.Snapshot(raiden.state, raiden.idCounter), width, height, keys, input, dice)
      ensures st.gameMode != GS.Raiden ==> raiden.state == old(raiden.state) && raiden.idCounter == old(raiden.idCounter)
      ensures st.gameMode == GS.Orbit ==> more == []
    {
      var aim := Aggregate(m, joystick, touch, ship.pos, st.gameMode, keys);
      ClampInputIsUnit(m, RawInput(m, joystick, touch, ship.pos, st.gameMode, keys));
      input := aim;
      acts := Steer(m, st, aim);
      steered, first := ship, acts;
      var rest;
      rest, crash, gain, pool := ModeStep(m, st, arcade, raiden, width, height, keys, aim, now, draws, samples, roll, dice);
      more := rest;
      acts := acts + rest;
    }
}
}
