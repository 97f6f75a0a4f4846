/** The asteroid-shooter minigame engine (`useArcadeEngine`).

    The engine owns two pools that it changes in place, the live bullets and the
    live asteroids, plus an id counter shared by both and the time of the last
    accepted shot. `ArcadeEngine` is that object; its methods are the hook's
    callbacks. Every `Math.random()` value is an input: the draws used to build an
    asteroid are looked up by the id the asteroid receives, and the candidate
    positions of the spawn loop are a finite list of samples. `Date.now()` is the
    `now` parameter. Sound effects are calls into another component and are left
    out. */
module Arcade {
  import opened Geometry

  datatype Bullet = Bullet(id: int, pos: Vec, vel: Vec, life: int)

  datatype Asteroid = Asteroid(
    id: int, pos: Vec, vel: Vec, size: real, tier: int,
    shape: seq<real>, rotation: real, spin: real)

  /** The `Math.random()` values one `createAsteroid` call consumes, in the
      order it consumes them: the vertex count, one value per vertex, the
      heading, the initial rotation and the spin. */
  datatype AsteroidDraw = AsteroidDraw(
    points: real, shape: int -> real, heading: real, rotation: real, spin: real)

  const SAFE_ZONE: real := 150.0
  const BULLET_LIFE: int := 60
  const FIRE_INTERVAL: int := 250
  const BULLET_SPEED: real := 10.0
  const NOSE_OFFSET: real := 15.0
  const WRAP_MARGIN: real := 50.0
  const SHIP_RADIUS: real := 10.0

  predicate InUnit(r: real) { 0.0 <= r < 1.0 }

  /** Every value of the draw lies where `Math.random()` puts it. */
  ghost predicate DrawInRange(d: AsteroidDraw) {
    InUnit(d.points) && InUnit(d.heading) && InUnit(d.rotation) && InUnit(d.spin)
    && forall p {:trigger d.shape(p)} :: InUnit(d.shape(p))
  }

  function TierSize(tier: int): real {
    if tier == 3 then 40.0 else if tier == 2 then 20.0 else 10.0
  }

  function TierSpeed(tier: int): real {
    if tier == 3 then 1.0 else if tier == 2 then 2.0 else 3.0
  }

  function TierPoints(tier: int): int {
    if tier == 3 then 20 else if tier == 2 then 50 else 100
  }

  /** `7 + Math.floor(Math.random() * 5)`; a negative count builds no vertex. */
  function VertexCount(points: real): (n: nat)
    ensures InUnit(points) ==> 7 <= n <= 11
  {
    var k := 7 + (points * 5.0).Floor;
    if k < 0 then 0 else k
  }

  /** The asteroid `createAsteroid(x, y, tier)` pushes when it is given `id`. */
  function MakeAsteroid(m: MathLib, id: int, pos: Vec, tier: int, d: AsteroidDraw): (a: Asteroid)
    ensures a.id == id && a.pos == pos && a.tier == tier
    ensures a.size == TierSize(tier)
    ensures a.size == (if tier == 3 then 40.0 else if tier == 2 then 20.0 else 10.0)
    ensures DrawInRange(d) ==> 7 <= |a.shape| <= 11
    ensures DrawInRange(d) ==> forall p :: 0 <= p < |a.shape| ==> 0.8 <= a.shape[p] < 1.2
    ensures DrawInRange(d) ==> -0.05 <= a.spin < 0.05
    ensures var s := if tier == 3 then 1.0 else if tier == 2 then 2.0 else 3.0;
      a.vel == Vec(m.cos(d.heading * PI * 2.0) * s, m.sin(d.heading * PI * 2.0) * s)
    ensures a.rotation == d.rotation * PI * 2.0
  {
    var n := VertexCount(d.points);
    var angle := d.heading * PI * 2.0;
    var speed := TierSpeed(tier);
    Asteroid(
      id, pos,
      Vec(m.cos(angle) * speed, m.sin(angle) * speed),
      TierSize(tier), tier,
      seq(n, p => 0.8 + d.shape(p) * 0.4),
      d.rotation * PI * 2.0,
      (d.spin - 0.5) * 0.1)
  }

  /** The spawn loop's rejection test: inside the 300x300 square around the centre. */
  predicate InSafeZone(p: Vec, width: real, height: real) {
    Abs(p.x - width / 2.0) < SAFE_ZONE && Abs(p.y - height / 2.0) < SAFE_ZONE
  }

  /** The position one pair of `Math.random()` values stands for. */
  function SamplePos(s: Vec, width: real, height: real): Vec {
    Vec(s.x * width, s.y * height)
  }

  /** The positions the do-while loop accepts, in the order it accepts them. */
  function Accepted(samples: seq<Vec>, width: real, height: real): (r: seq<Vec>)
    ensures |r| <= |samples|
    ensures forall k :: 0 <= k < |r| ==> !InSafeZone(r[k], width, height)
  {
    if samples == [] then []
    else
      var p := SamplePos(samples[0], width, height);
      (if InSafeZone(p, width, height) then [] else [p]) + Accepted(samples[1..], width, height)
  }

  /** The `do { ... } while` of the spawn loop: from sample `j` on, the first
      sample whose position is outside the safe zone. */
  method NextAccepted(samples: seq<Vec>, j: nat, width: real, height: real) returns (n: nat)
    requires j <= |samples| && 0 < |Accepted(samples[j..], width, height)|
    ensures j <= n < |samples|
    ensures !InSafeZone(SamplePos(samples[n], width, height), width, height)
    ensures forall k :: j <= k < n ==> InSafeZone(SamplePos(samples[k], width, height), width, height)
    ensures Accepted(samples[j..], width, height)
      == [SamplePos(samples[n], width, height)] + Accepted(samples[n + 1..], width, height)
  {
    n := j;
    while InSafeZone(SamplePos(samples[n], width, height), width, height)
      invariant j <= n < |samples|
      invariant forall k :: j <= k < n ==> InSafeZone(SamplePos(samples[k], width, height), width, height)
      invariant Accepted(samples[j..], width, height) == Accepted(samples[n..], width, height)
      decreases |samples| - n
    {
      assert samples[n..][1..] == samples[n + 1..];
      n := n + 1;
      if n == |samples| {
        assert false;
      }
    }
    assert samples[n..][1..] == samples[n + 1..];
  }

  /** The asteroids `spawnAsteroids` creates at the positions `ps`, numbered from `id0`. */
  function Wave(m: MathLib, id0: int, ps: seq<Vec>, draws: int -> AsteroidDraw): (r: seq<Asteroid>)
    ensures |r| == |ps|
  {
    seq(|ps|, k requires 0 <= k < |ps| => MakeAsteroid(m, id0 + k, ps[k], 3, draws(id0 + k)))
  }

  lemma WaveAppend(m: MathLib, id0: int, ps: seq<Vec>, p: Vec, draws: int -> AsteroidDraw)
    ensures Wave(m, id0, ps + [p], draws)
      == Wave(m, id0, ps, draws) + [MakeAsteroid(m, id0 + |ps|, p, 3, draws(id0 + |ps|))]
  {}

  /** Every asteroid of a wave at accepted positions is a large one outside the safe zone. */
  lemma WaveOutsideSafeZone(m: MathLib, id0: int, samples: seq<Vec>, count: nat,
                            width: real, height: real, draws: int -> AsteroidDraw)
    requires count <= |Accepted(samples, width, height)|
    ensures var w := Wave(m, id0, Accepted(samples, width, height)[..count], draws);
      |w| == count
      && forall k :: 0 <= k < count ==>
        w[k].tier == 3 && w[k].id == id0 + k && w[k].size == 40.0
        && !InSafeZone(w[k].pos, width, height)
  {}

  /** On a canvas narrower and lower than the 300-wide safe square, every
      `Math.random()` pair lands inside the square: no draw is ever
      accepted, so the spawning do-while, which only ends on an accepted
      draw, never ends. */
  lemma {:induction false} NoSpotOnSmallCanvas(samples: seq<Vec>, width: real, height: real)
    requires 0.0 <= width < 2.0 * SAFE_ZONE && 0.0 <= height < 2.0 * SAFE_ZONE
    requires forall k :: 0 <= k < |samples| ==> 0.0 <= samples[k].x < 1.0 && 0.0 <= samples[k].y < 1.0
    ensures Accepted(samples, width, height) == []
  {
    if samples != [] {
      SampleInCentre(samples[0].x, width);
      SampleInCentre(samples[0].y, height);
      NoSpotOnSmallCanvas(samples[1..], width, height);
    }
  }

  /** A draw `u` in [0, 1) scaled to a side shorter than 300 is less than
      150 from the side's middle. */
  lemma SampleInCentre(u: real, side: real)
    requires 0.0 <= u < 1.0 && 0.0 <= side < 2.0 * SAFE_ZONE
    ensures Abs(u * side - side / 2.0) < SAFE_ZONE
  {
    MulMonotone(side, 0.0, u);
    MulMonotone(side, u, 1.0);
    var d := u * side - side / 2.0;
    assert -side / 2.0 <= d <= side / 2.0;
    assert side / 2.0 < SAFE_ZONE;
  }

  /** The corrected spawn's budget of redraws per asteroid. */
  const MAX_REDRAWS: nat := 100

  /** The corrected spawn position: the first of at most `tries` draws
      whose position lies outside the safe zone, or the canvas corner
      (0, 0) once the budget or the supply runs out; with the draws left. */
  function BoundedSpot(samples: seq<Vec>, tries: nat, width: real, height: real): (r: (Vec, seq<Vec>))
    ensures |r.1| <= |samples|
    decreases tries
  {
    if tries == 0 || samples == [] then (Vec(0.0, 0.0), samples)
    else
      var p := SamplePos(samples[0], width, height);
      if InSafeZone(p, width, height) then BoundedSpot(samples[1..], tries - 1, width, height)
      else (p, samples[1..])
  }

  /** The corrected positions of a wave of `count` asteroids, each taken with
      its own budget of redraws. */
  function BoundedSpots(samples: seq<Vec>, count: nat, width: real, height: real): (ps: seq<Vec>)
    ensures |ps| == count
    decreases count
  {
    if count == 0 then []
    else
      var s := BoundedSpot(samples, MAX_REDRAWS, width, height);
      [s.0] + BoundedSpots(s.1, count - 1, width, height)
  }

  /** A bounded spot is an accepted draw or the corner, and the corner is
      outside the safe zone whenever the canvas is 300 or more wide or
      high. */
  lemma {:induction false} BoundedSpotFacts(samples: seq<Vec>, tries: nat, width: real, height: real)
    requires 0.0 <= width && 0.0 <= height
    ensures var p := BoundedSpot(samples, tries, width, height).0;
      && (p == Vec(0.0, 0.0) || (p in Accepted(samples, width, height)))
      && (2.0 * SAFE_ZONE <= width || 2.0 * SAFE_ZONE <= height ==> !InSafeZone(p, width, height))
    decreases tries
  {
    if tries != 0 && samples != [] {
      var q := SamplePos(samples[0], width, height);
      if InSafeZone(q, width, height) {
        BoundedSpotFacts(samples[1..], tries - 1, width, height);
      } else {
        assert Accepted(samples, width, height)[0] == q;
      }
    }
  }

  /** The corrected wave: at most `MAX_REDRAWS` draws per asteroid, so it
      ends on every canvas, with exactly `count` large asteroids numbered
      from `id0`; each stands at an accepted draw or at the corner, and on a
      canvas 300 or more wide or high none is inside the safe zone. */
  lemma {:induction false} BoundedWaveFacts(m: MathLib, id0: int, samples: seq<Vec>, count: nat,
                                            width: real, height: real, draws: int -> AsteroidDraw)
    requires 0.0 <= width && 0.0 <= height
    ensures var ps := BoundedSpots(samples, count, width, height); var w := Wave(m, id0, ps, draws);
      && |w| == count
      && (forall k :: 0 <= k < count ==> w[k].tier == 3 && w[k].id == id0 + k && w[k].pos == ps[k])
      && (forall k :: 0 <= k < count ==> ps[k] == Vec(0.0, 0.0) || !InSafeZone(ps[k], width, height))
      && (2.0 * SAFE_ZONE <= width || 2.0 * SAFE_ZONE <= height ==>
            forall k :: 0 <= k < count ==> !InSafeZone(w[k].pos, width, height))
  {
    BoundedSpotsOutside(samples, count, width, height);
  }

  /** Every corrected position is the corner or outside the safe zone, and
      all are outside it on a canvas 300 or more wide or high. */
  lemma {:induction false} BoundedSpotsOutside(samples: seq<Vec>, count: nat, width: real, height: real)
    requires 0.0 <= width && 0.0 <= height
    ensures var ps := BoundedSpots(samples, count, width, height);
      && (forall k :: 0 <= k < count ==> ps[k] == Vec(0.0, 0.0) || !InSafeZone(ps[k], width, height))
      && (2.0 * SAFE_ZONE <= width || 2.0 * SAFE_ZONE <= height ==>
            forall k :: 0 <= k < count ==> !InSafeZone(ps[k], width, height))
    decreases count
  {
    if count != 0 {
      var s := BoundedSpot(samples, MAX_REDRAWS, width, height);
      BoundedSpotFacts(samples, MAX_REDRAWS, width, height);
      BoundedSpotsOutside(s.1, count - 1, width, height);
      var ps := BoundedSpots(samples, count, width, height);
      assert ps == [s.0] + BoundedSpots(s.1, count - 1, width, height);
      forall k | 1 <= k < count
        ensures ps[k] == BoundedSpots(s.1, count - 1, width, height)[k - 1]
      {}
    }
  }

  /** One wrap-around test pair as the engine writes it: below `lo` jumps to
      `hi`, then above `hi` jumps to `lo`. */
  function WrapCoord(v: real, lo: real, hi: real): (r: real)
    requires lo <= hi
    ensures lo <= r <= hi
    ensures lo <= v <= hi ==> r == v
    ensures v < lo ==> r == hi
    ensures hi < v ==> r == lo
  {
    var a := if v < lo then hi else v;
    if a > hi then lo else a
  }

  /** Inside `[lo, width - lo] x [lo, height - lo]`. */
  predicate InField(p: Vec, lo: real, width: real, height: real) {
    lo <= p.x <= width - lo && lo <= p.y <= height - lo
  }

  /** One bullet's move in the `forEach`: advance, age by one, wrap into the screen. */
  function StepBullet(b: Bullet, width: real, height: real): (r: Bullet)
    requires 0.0 <= width && 0.0 <= height
    ensures r.id == b.id && r.vel == b.vel && r.life == b.life - 1
    ensures InField(r.pos, 0.0, width, height)
    ensures InField(Add(b.pos, b.vel), 0.0, width, height) ==> r.pos == Add(b.pos, b.vel)
  {
    var p := Add(b.pos, b.vel);
    Bullet(b.id, Vec(WrapCoord(p.x, 0.0, width), WrapCoord(p.y, 0.0, height)), b.vel, b.life - 1)
  }

  /** One asteroid's move: advance, turn, wrap with a 50-unit margin off screen. */
  function StepAsteroid(a: Asteroid, width: real, height: real): (r: Asteroid)
    requires -2.0 * WRAP_MARGIN <= width && -2.0 * WRAP_MARGIN <= height
    ensures r.id == a.id && r.vel == a.vel && r.size == a.size && r.tier == a.tier
    ensures r.shape == a.shape && r.spin == a.spin && r.rotation == a.rotation + a.spin
    ensures InField(r.pos, -WRAP_MARGIN, width, height)
    ensures InField(Add(a.pos, a.vel), -WRAP_MARGIN, width, height) ==> r.pos == Add(a.pos, a.vel)
  {
    var p := Add(a.pos, a.vel);
    a.(pos := Vec(WrapCoord(p.x, -WRAP_MARGIN, width + WRAP_MARGIN),
                  WrapCoord(p.y, -WRAP_MARGIN, height + WRAP_MARGIN)),
       rotation := a.rotation + a.spin)
  }

  /** `bullets.filter(b => b.life > 0)`. */
  function Live(bs: seq<Bullet>): (r: seq<Bullet>)
    ensures |r| <= |bs|
    ensures forall b :: b in r <==> b in bs && b.life > 0
  {
    if bs == [] then []
    else (if bs[0].life > 0 then [bs[0]] else []) + Live(bs[1..])
  }

  /** A bullet hits an asteroid strictly inside the asteroid's radius. */
  predicate Hits(m: MathLib, b: Bullet, a: Asteroid) {
    Length(m, Sub(b.pos, a.pos)) < a.size
  }

  /** The ship touches an asteroid within the asteroid's radius plus 10. */
  predicate ShipHits(m: MathLib, ship: Vec, a: Asteroid) {
    Length(m, Sub(ship, a.pos)) < a.size + SHIP_RADIUS
  }

  /** The ship crashes when the game is not over and it touches some asteroid of the pool. */
  predicate ShipCrash(m: MathLib, ship: Vec, gameOver: bool, roids: seq<Asteroid>) {
    !gameOver && exists j :: 0 <= j < |roids| && ShipHits(m, ship, roids[j])
  }

  /** Score for a list of destroyed asteroids. */
  function Points(ds: seq<Asteroid>): int {
    if ds == [] then 0 else Points(ds[..|ds| - 1]) + TierPoints(ds[|ds| - 1].tier)
  }

  /** Net change of the asteroid pool for a list of destroyed asteroids: a
      split adds two and removes one, a tier-1 asteroid just disappears. */
  function PoolDelta(ds: seq<Asteroid>): int {
    if ds == [] then 0 else PoolDelta(ds[..|ds| - 1]) + (if ds[|ds| - 1].tier > 1 then 1 else -1)
  }

  /** How many of the first `n` bullets had life left before and none after. */
  function Spent(before: seq<Bullet>, after: seq<Bullet>, n: nat): nat
    requires n <= |before| && n <= |after|
  {
    if n == 0 then 0
    else Spent(before, after, n - 1) + (if before[n - 1].life > 0 && after[n - 1].life == 0 then 1 else 0)
  }

  lemma {:induction false} SpentPrefix(before: seq<Bullet>, after: seq<Bullet>, i: nat, b: Bullet, n: nat)
    requires n <= i < |before| && i < |after|
    ensures Spent(before, after[i := b], n) == Spent(before, after, n)
  {
    if n > 0 {
      SpentPrefix(before, after, i, b, n - 1);
    }
  }

  /** Changing entry `n - 1` of `after`, which was still unspent, adds one
      to the count exactly when the change spends it. */
  lemma SpentStep(before: seq<Bullet>, after0: seq<Bullet>, after: seq<Bullet>, n: nat)
    requires 0 < n <= |before| && |after0| == |after| && n <= |after|
    requires after == after0[n - 1 := after[n - 1]] && after0[n - 1] == before[n - 1]
    ensures Spent(before, after, n) == Spent(before, after0, n)
      + (if before[n - 1].life > 0 && after[n - 1].life == 0 then 1 else 0)
  {
    SpentPrefix(before, after0, n - 1, after[n - 1], n - 1);
  }

  lemma {:induction false} SpentAtMost(before: seq<Bullet>, after: seq<Bullet>, n: nat)
    requires n <= |before| && n <= |after|
    ensures Spent(before, after, n) <= n
  {
    if n > 0 {
      SpentAtMost(before, after, n - 1);
    }
  }

  /** The engine's contact test, `Hits`, as a value. */
  function BulletHits(m: MathLib): (hit: (Bullet, Asteroid) -> bool)
    ensures forall b, a :: hit(b, a) == Hits(m, b, a)
  {
    (b: Bullet, a: Asteroid) => Hits(m, b, a)
  }

  /** The highest index whose asteroid the bullet hits, or -1. */
  function LastHit(hit: (Bullet, Asteroid) -> bool, b: Bullet, roids: seq<Asteroid>): (k: int)
    ensures -1 <= k < |roids|
    ensures 0 <= k ==> hit(b, roids[k])
    decreases |roids|
  {
    if |roids| == 0 then -1
    else if hit(b, roids[|roids| - 1]) then |roids| - 1
    else LastHit(hit, b, roids[..|roids| - 1])
  }

  /** No asteroid after the one `LastHit` picks is hit, so it is -1 exactly
      when none is. */
  lemma {:induction false} LastHitHighest(hit: (Bullet, Asteroid) -> bool, b: Bullet, roids: seq<Asteroid>)
    ensures forall j :: LastHit(hit, b, roids) < j < |roids| ==> !hit(b, roids[j])
    decreases |roids|
  {
    if |roids| > 0 && !hit(b, roids[|roids| - 1]) {
      var p := roids[..|roids| - 1];
      LastHitHighest(hit, b, p);
      forall j | LastHit(hit, b, roids) < j < |roids|
        ensures !hit(b, roids[j])
      {
        if j < |roids| - 1 {
          assert roids[j] == p[j];
        }
      }
    }
  }

  /** What the bullet-asteroid pass takes from the engine: the contact test
      and the asteroid `createAsteroid` builds for an id, a position and a
      tier. The pass and its lemmas hold for any such pair; the engine runs
      it with `EngineRules`. */
  datatype PassRules = PassRules(hit: (Bullet, Asteroid) -> bool, make: (int, Vec, int) -> Asteroid)

  /** The engine's rules: `Hits`, and `MakeAsteroid` with the draws the new id is given. */
  function EngineRules(m: MathLib, draws: int -> AsteroidDraw): (rules: PassRules)
    ensures rules.hit == BulletHits(m)
    ensures forall id, pos, tier :: rules.make(id, pos, tier) == MakeAsteroid(m, id, pos, tier, draws(id))
  {
    PassRules(BulletHits(m), (id: int, pos: Vec, tier: int) => MakeAsteroid(m, id, pos, tier, draws(id)))
  }

  /** The state the bullet-asteroid pass carries from one bullet to the
      next: both pools, the id counter, the points won and the asteroids
      destroyed so far. */
  datatype HitState = HitState(
    bullets: seq<Bullet>, roids: seq<Asteroid>, nextId: int, gain: int, destroyed: seq<Asteroid>)

  /** The pool once the asteroid at `k` is destroyed: spliced out and, when
      its tier is above 1, followed by two asteroids of the next tier at its
      place numbered `id` and `id + 1`. Nothing else is added. */
  function Shattered(make: (int, Vec, int) -> Asteroid, roids: seq<Asteroid>, k: nat, id: int): (r: seq<Asteroid>)
    requires k < |roids|
    ensures |r| == |roids| + (if roids[k].tier > 1 then 1 else -1)
    ensures forall x :: x in r ==> (x in roids
      || x == make(id, roids[k].pos, roids[k].tier - 1) || x == make(id + 1, roids[k].pos, roids[k].tier - 1))
  {
    var a := roids[k];
    var rest := roids[..k] + roids[k + 1..];
    assert forall x :: x in rest ==> x in roids;
    if a.tier > 1 then rest + [make(id, a.pos, a.tier - 1), make(id + 1, a.pos, a.tier - 1)]
    else rest
  }

  /** The id counter after destroying `a`: two ids are used when it splits. */
  function IdAfter(a: Asteroid, id: int): int {
    if a.tier > 1 then id + 2 else id
  }

  /** The asteroid at `k` destroyed: the pool shattered, its tier's points
      won, the counter moved past the fragments' ids. */
  function Shatter(rules: PassRules, s: HitState, k: nat): (r: HitState)
    requires k < |s.roids|
    ensures r.bullets == s.bullets
    ensures r.destroyed == s.destroyed + [s.roids[k]]
    ensures r.gain == s.gain + TierPoints(s.roids[k].tier)
  {
    var a := s.roids[k];
    s.(roids := Shattered(rules.make, s.roids, k, s.nextId), nextId := IdAfter(a, s.nextId),
       gain := s.gain + TierPoints(a.tier), destroyed := s.destroyed + [a])
  }

  /** The turn of bullet `i`: with life left and an asteroid in reach, it is
      spent and destroys the highest-index asteroid it hits. */
  function HitStep(rules: PassRules, s: HitState, i: nat): HitState
    requires i < |s.bullets|
  {
    var b := s.bullets[i];
    if b.life <= 0 then s
    else
      var k := LastHit(rules.hit, b, s.roids);
      if k < 0 then s else Shatter(rules, s.(bullets := s.bullets[i := b.(life := 0)]), k)
  }

  /** The pass after the turns of the first `n` bullets of `bs`, starting
      from the pool `roids` and the id counter `id0`. */
  function HitPass(rules: PassRules, bs: seq<Bullet>, roids: seq<Asteroid>, id0: int, n: nat): (r: HitState)
    requires n <= |bs|
    ensures |r.bullets| == |bs|
  {
    if n == 0 then HitState(bs, roids, id0, 0, [])
    else HitStep(rules, HitPass(rules, bs, roids, id0, n - 1), n - 1)
  }

  /** Some asteroid of `roids` is within reach of `b`. */
  predicate InReach(hit: (Bullet, Asteroid) -> bool, b: Bullet, roids: seq<Asteroid>) {
    exists j :: 0 <= j < |roids| && hit(b, roids[j])
  }

  /** Whether bullet `b` is spent at its turn against the pool `roids`. */
  predicate SpentOn(hit: (Bullet, Asteroid) -> bool, b: Bullet, roids: seq<Asteroid>) {
    b.life > 0 && LastHit(hit, b, roids) >= 0
  }

  /** A turn whose bullet is not spent changes nothing. */
  lemma HitStepSkip(rules: PassRules, s: HitState, i: nat)
    requires i < |s.bullets| && !SpentOn(rules.hit, s.bullets[i], s.roids)
    ensures HitStep(rules, s, i) == s
  {}

  /** A turn whose bullet is spent changes only that bullet, to no life
      left, and destroys the highest-index asteroid it hits. */
  lemma HitStepSpend(rules: PassRules, s: HitState, i: nat)
    requires i < |s.bullets| && SpentOn(rules.hit, s.bullets[i], s.roids)
    ensures var r := HitStep(rules, s, i);
      var b := s.bullets[i];
      var a := s.roids[LastHit(rules.hit, b, s.roids)];
      && r.bullets == s.bullets[i := b.(life := 0)]
      && r.destroyed == s.destroyed + [a] && a in s.roids && rules.hit(b, a)
      && r.gain == s.gain + TierPoints(a.tier)
      && |r.roids| == |s.roids| + (if a.tier > 1 then 1 else -1)
      && s.nextId <= r.nextId
  {
    assert s.roids[LastHit(rules.hit, s.bullets[i], s.roids)] in s.roids;
  }

  /** A bullet is spent at its turn exactly when it has life left and some
      asteroid of the pool is within reach. */
  lemma SpentOnIff(hit: (Bullet, Asteroid) -> bool, b: Bullet, roids: seq<Asteroid>)
    ensures SpentOn(hit, b, roids) <==> b.life > 0 && InReach(hit, b, roids)
  {
    LastHitHighest(hit, b, roids);
  }

  /** One turn changes only its own bullet, either not at all or by
      spending it. */
  lemma BulletStep(rules: PassRules, s: HitState, i: nat)
    requires i < |s.bullets|
    ensures var r := HitStep(rules, s, i);
      var b := s.bullets[i];
      && r.bullets == s.bullets[i := r.bullets[i]]
      && (r.bullets[i] == b || (b.life > 0 && r.bullets[i] == b.(life := 0)))
  {
    if SpentOn(rules.hit, s.bullets[i], s.roids) {
      HitStepSpend(rules, s, i);
    } else {
      HitStepSkip(rules, s, i);
    }
  }

  /** A turn spends its bullet exactly when it had life left and some
      asteroid of the pool was within reach. */
  lemma ReachStep(rules: PassRules, s: HitState, i: nat)
    requires i < |s.bullets| && s.bullets[i].life > 0
    ensures HitStep(rules, s, i).bullets[i].life == 0 <==> InReach(rules.hit, s.bullets[i], s.roids)
  {
    SpentOnIff(rules.hit, s.bullets[i], s.roids);
    if SpentOn(rules.hit, s.bullets[i], s.roids) {
      HitStepSpend(rules, s, i);
    } else {
      HitStepSkip(rules, s, i);
    }
  }

  /** One turn keeps the totals: points of the destroyed tiers, pool size
      by the net change, ids only going up. */
  lemma TotalsStep(rules: PassRules, s: HitState, i: nat, roids: seq<Asteroid>, id0: int)
    requires i < |s.bullets|
    requires s.gain == Points(s.destroyed) && |s.roids| == |roids| + PoolDelta(s.destroyed) && id0 <= s.nextId
    ensures var r := HitStep(rules, s, i);
      r.gain == Points(r.destroyed) && |r.roids| == |roids| + PoolDelta(r.destroyed) && id0 <= r.nextId
  {
    var b := s.bullets[i];
    if SpentOn(rules.hit, b, s.roids) {
      HitStepSpend(rules, s, i);
      PointsAppend(s.destroyed, s.roids[LastHit(rules.hit, b, s.roids)]);
    } else {
      HitStepSkip(rules, s, i);
    }
  }

  /** Spending entry `i` of the bullets adds one to `Spent` per destroyed asteroid. */
  lemma CountAbs(s: HitState, r: HitState, i: nat, bs: seq<Bullet>)
    requires i < |s.bullets| == |bs| && s.bullets[i] == bs[i] && |r.bullets| == |s.bullets|
    requires |s.destroyed| == Spent(bs, s.bullets, i)
    requires r.bullets == s.bullets[i := r.bullets[i]]
    requires (|r.destroyed| == |s.destroyed| + 1 && bs[i].life > 0 && r.bullets[i].life == 0)
      || (|r.destroyed| == |s.destroyed| && r.bullets[i] == bs[i])
    ensures |r.destroyed| == Spent(bs, r.bullets, i + 1)
  {
    SpentStep(bs, s.bullets, r.bullets, i + 1);
  }

  /** One turn destroys one asteroid exactly when it spends its bullet. */
  lemma CountStep(rules: PassRules, s: HitState, i: nat, bs: seq<Bullet>)
    requires i < |s.bullets| == |bs| && s.bullets[i] == bs[i]
    requires |s.destroyed| == Spent(bs, s.bullets, i)
    ensures var r := HitStep(rules, s, i);
      |r.destroyed| == Spent(bs, r.bullets, i + 1)
  {
    if SpentOn(rules.hit, bs[i], s.roids) {
      HitStepSpend(rules, s, i);
    } else {
      HitStepSkip(rules, s, i);
    }
    CountAbs(s, HitStep(rules, s, i), i, bs);
  }

  /** One turn destroys nothing, or one asteroid of the pool its bullet hits. */
  lemma DestroyStep(rules: PassRules, s: HitState, i: nat)
    requires i < |s.bullets|
    ensures var r := HitStep(rules, s, i);
      r.destroyed == s.destroyed
      || (|r.destroyed| == |s.destroyed| + 1 && r.destroyed[..|s.destroyed|] == s.destroyed
          && r.destroyed[|s.destroyed|] in s.roids && rules.hit(s.bullets[i], r.destroyed[|s.destroyed|]))
  {
    if SpentOn(rules.hit, s.bullets[i], s.roids) {
      HitStepSpend(rules, s, i);
      var r := HitStep(rules, s, i);
      assert r.destroyed[..|s.destroyed|] == s.destroyed;
    } else {
      HitStepSkip(rules, s, i);
    }
  }

  /** Bullets whose turn has not come yet are as they started. */
  lemma {:induction false} HitPassLater(rules: PassRules, bs: seq<Bullet>, roids: seq<Asteroid>, id0: int, n: nat, k: nat)
    requires n <= k < |bs|
    ensures HitPass(rules, bs, roids, id0, n).bullets[k] == bs[k]
  {
    if n > 0 {
      HitPassLater(rules, bs, roids, id0, n - 1, k);
      BulletStep(rules, HitPass(rules, bs, roids, id0, n - 1), n - 1);
    }
  }

  /** Bullet `k` after the pass is as it started, or spent having had life left. */
  lemma {:induction false} HitPassBulletAt(rules: PassRules, bs: seq<Bullet>, roids: seq<Asteroid>, id0: int, n: nat, k: nat)
    requires k < n <= |bs|
    ensures var b := HitPass(rules, bs, roids, id0, n).bullets[k];
      b == bs[k] || (bs[k].life > 0 && b == bs[k].(life := 0))
  {
    var s := HitPass(rules, bs, roids, id0, n - 1);
    BulletStep(rules, s, n - 1);
    if k < n - 1 {
      HitPassBulletAt(rules, bs, roids, id0, n - 1, k);
    } else {
      HitPassLater(rules, bs, roids, id0, n - 1, k);
    }
  }

  /** A turn of the pass either leaves a bullet as it was or spends one that
      had life left. */
  lemma HitPassBullets(rules: PassRules, bs: seq<Bullet>, roids: seq<Asteroid>, id0: int, n: nat)
    requires n <= |bs|
    ensures var r := HitPass(rules, bs, roids, id0, n);
      forall k :: 0 <= k < n ==>
        r.bullets[k] == bs[k] || (bs[k].life > 0 && r.bullets[k] == bs[k].(life := 0))
  {
    forall k | 0 <= k < n
      ensures var b := HitPass(rules, bs, roids, id0, n).bullets[k];
        b == bs[k] || (bs[k].life > 0 && b == bs[k].(life := 0))
    {
      HitPassBulletAt(rules, bs, roids, id0, n, k);
    }
  }

  /** The totals of the pass: the points are those of the destroyed tiers;
      the pool grows by one per split and shrinks by one per tier-1
      asteroid; ids only go up. */
  lemma {:induction false} HitPassTotals(rules: PassRules, bs: seq<Bullet>, roids: seq<Asteroid>, id0: int, n: nat)
    requires n <= |bs|
    ensures var r := HitPass(rules, bs, roids, id0, n);
      && r.gain == Points(r.destroyed)
      && |r.roids| == |roids| + PoolDelta(r.destroyed)
      && id0 <= r.nextId
  {
    if n > 0 {
      HitPassTotals(rules, bs, roids, id0, n - 1);
      var s := HitPass(rules, bs, roids, id0, n - 1);
      TotalsStep(rules, s, n - 1, roids, id0);
      assert HitPass(rules, bs, roids, id0, n) == HitStep(rules, s, n - 1);
    }
  }

  /** One asteroid is destroyed per spent bullet. */
  lemma {:induction false} HitPassSpent(rules: PassRules, bs: seq<Bullet>, roids: seq<Asteroid>, id0: int, n: nat)
    requires n <= |bs|
    ensures var r := HitPass(rules, bs, roids, id0, n);
      |r.destroyed| == Spent(bs, r.bullets, n)
  {
    if n > 0 {
      var s := HitPass(rules, bs, roids, id0, n - 1);
      HitPassSpent(rules, bs, roids, id0, n - 1);
      HitPassLater(rules, bs, roids, id0, n - 1, n - 1);
      CountStep(rules, s, n - 1, bs);
      assert HitPass(rules, bs, roids, id0, n) == HitStep(rules, s, n - 1);
    }
  }

  /** Bullet `k`'s own turn decides it: with life left, it is spent exactly
      when some asteroid of the pool as it stood at that turn is within
      reach; later turns leave it alone. */
  lemma {:induction false} HitPassReachAt(rules: PassRules, bs: seq<Bullet>, roids: seq<Asteroid>, id0: int, n: nat, k: nat)
    requires k < n <= |bs| && bs[k].life > 0
    ensures HitPass(rules, bs, roids, id0, n).bullets[k].life == 0
      <==> InReach(rules.hit, bs[k], HitPass(rules, bs, roids, id0, k).roids)
  {
    var s := HitPass(rules, bs, roids, id0, n - 1);
    if k < n - 1 {
      BulletStep(rules, s, n - 1);
      HitPassReachAt(rules, bs, roids, id0, n - 1, k);
    } else {
      HitPassLater(rules, bs, roids, id0, k, k);
      ReachStep(rules, s, k);
    }
  }

  /** No hit is missed: a bullet with life left is spent exactly when some
      asteroid of the pool, as it stood at that bullet's turn, is within
      reach. */
  lemma HitPassReach(rules: PassRules, bs: seq<Bullet>, roids: seq<Asteroid>, id0: int, n: nat)
    requires n <= |bs|
    ensures var r := HitPass(rules, bs, roids, id0, n);
      forall k :: 0 <= k < n && bs[k].life > 0 ==>
        (r.bullets[k].life == 0 <==> InReach(rules.hit, bs[k], HitPass(rules, bs, roids, id0, k).roids))
  {
    forall k | 0 <= k < n && bs[k].life > 0
      ensures HitPass(rules, bs, roids, id0, n).bullets[k].life == 0
        <==> InReach(rules.hit, bs[k], HitPass(rules, bs, roids, id0, k).roids)
    {
      HitPassReachAt(rules, bs, roids, id0, n, k);
    }
  }

  /** `x` was in the pool at the turn of one of the first `n` bullets, and
      that bullet hit it. */
  predicate HitInPass(rules: PassRules, bs: seq<Bullet>, roids: seq<Asteroid>, id0: int, n: nat, x: Asteroid)
    requires n <= |bs|
  {
    exists k :: 0 <= k < n && x in HitPass(rules, bs, roids, id0, k).roids && rules.hit(bs[k], x)
  }

  /** The `t`-th destroyed asteroid was in the pool at the turn of a bullet
      that hit it. */
  lemma {:induction false} HitPassDestroyedAt(rules: PassRules, bs: seq<Bullet>, roids: seq<Asteroid>, id0: int, n: nat, t: nat)
    requires n <= |bs| && t < |HitPass(rules, bs, roids, id0, n).destroyed|
    ensures HitInPass(rules, bs, roids, id0, n, HitPass(rules, bs, roids, id0, n).destroyed[t])
  {
    var s := HitPass(rules, bs, roids, id0, n - 1);
    var r := HitPass(rules, bs, roids, id0, n);
    DestroyStep(rules, s, n - 1);
    if t < |s.destroyed| {
      assert r.destroyed[t] == s.destroyed[..|s.destroyed|][t];
      HitPassDestroyedAt(rules, bs, roids, id0, n - 1, t);
      HitInPassGrow(rules, bs, roids, id0, n - 1, n, s.destroyed[t]);
    } else {
      HitPassLater(rules, bs, roids, id0, n - 1, n - 1);
      HitInPassAt(rules, bs, roids, id0, n, n - 1, r.destroyed[t]);
    }
  }

  /** A hit within the first `n` turns is one within any longer prefix. */
  lemma HitInPassGrow(rules: PassRules, bs: seq<Bullet>, roids: seq<Asteroid>, id0: int, n: nat, n': nat, x: Asteroid)
    requires n <= n' <= |bs| && HitInPass(rules, bs, roids, id0, n, x)
    ensures HitInPass(rules, bs, roids, id0, n', x)
  {
    var k :| 0 <= k < n && x in HitPass(rules, bs, roids, id0, k).roids && rules.hit(bs[k], x);
  }

  /** A hit at turn `k` is one within the first `n > k` turns. */
  lemma HitInPassAt(rules: PassRules, bs: seq<Bullet>, roids: seq<Asteroid>, id0: int, n: nat, k: nat, x: Asteroid)
    requires k < n <= |bs| && x in HitPass(rules, bs, roids, id0, k).roids && rules.hit(bs[k], x)
    ensures HitInPass(rules, bs, roids, id0, n, x)
  {}

  /** None is invented: every destroyed asteroid was in the pool at the turn
      of a bullet that hit it. */
  lemma HitPassDestroyed(rules: PassRules, bs: seq<Bullet>, roids: seq<Asteroid>, id0: int, n: nat)
    requires n <= |bs|
    ensures var r := HitPass(rules, bs, roids, id0, n);
      forall t :: 0 <= t < |r.destroyed| ==> HitInPass(rules, bs, roids, id0, n, r.destroyed[t])
  {
    var r := HitPass(rules, bs, roids, id0, n);
    forall t | 0 <= t < |r.destroyed|
      ensures HitInPass(rules, bs, roids, id0, n, r.destroyed[t])
    {
      HitPassDestroyedAt(rules, bs, roids, id0, n, t);
    }
  }

  /** Destroying an asteroid of a pool inside the wrap margin leaves the
      pool inside it: the fragments stand where the asteroid stood. */
  lemma ShatteredInField(m: MathLib, draws: int -> AsteroidDraw, roids: seq<Asteroid>, k: nat, id: int,
                         width: real, height: real)
    requires k < |roids|
    requires forall j :: 0 <= j < |roids| ==> InField(roids[j].pos, -WRAP_MARGIN, width, height)
    ensures var r := Shattered(EngineRules(m, draws).make, roids, k, id);
      forall j :: 0 <= j < |r| ==> InField(r[j].pos, -WRAP_MARGIN, width, height)
  {
    var r := Shattered(EngineRules(m, draws).make, roids, k, id);
    forall j | 0 <= j < |r|
      ensures InField(r[j].pos, -WRAP_MARGIN, width, height)
    {
      assert r[j] in r;
      if r[j] in roids {
        var q :| 0 <= q < |roids| && roids[q] == r[j];
      }
    }
  }

  /** The reverse search of the collision loop: the highest index whose
      asteroid the bullet hits, or -1. */
  method LastHitIndex(m: MathLib, b: Bullet, roids: seq<Asteroid>) returns (k: int)
    ensures k == LastHit(BulletHits(m), b, roids)
    ensures -1 <= k < |roids|
    ensures 0 <= k ==> Hits(m, b, roids[k])
    ensures forall j :: k < j < |roids| ==> !Hits(m, b, roids[j])
  {
    k := |roids| - 1;
    assert roids[..k + 1] == roids;
    while k >= 0
      invariant -1 <= k < |roids|
      invariant forall j :: k < j < |roids| ==> !Hits(m, b, roids[j])
      invariant LastHit(BulletHits(m), b, roids) == LastHit(BulletHits(m), b, roids[..k + 1])
    {
      if Hits(m, b, roids[k]) {
        return;
      }
      assert roids[..k + 1][..k] == roids[..k];
      k := k - 1;
    }
  }

  /** The `for ... of` over the asteroids with `break` on the first contact. */
  method ShipCollides(m: MathLib, ship: Vec, roids: seq<Asteroid>) returns (hit: bool)
    ensures hit <==> exists j :: 0 <= j < |roids| && ShipHits(m, ship, roids[j])
  {
    hit := false;
    var i := 0;
    while i < |roids|
      invariant 0 <= i <= |roids|
      invariant forall j :: 0 <= j < i ==> !ShipHits(m, ship, roids[j])
    {
      if ShipHits(m, ship, roids[i]) {
        hit := true;
        return;
      }
      i := i + 1;
    }
  }

  /** With an exact square root, a hit is the squared-distance comparison. */
  lemma HitsBySquares(m: MathLib, b: Bullet, a: Asteroid)
    requires ExactSqrt(m) && 0.0 <= a.size
    ensures Hits(m, b, a) <==> Norm2(Sub(b.pos, a.pos)) < Sq(a.size)
  {
    SqNonNegative(b.pos.x - a.pos.x);
    SqNonNegative(b.pos.y - a.pos.y);
    SqrtBelow(m, Norm2(Sub(b.pos, a.pos)), a.size);
  }

  /** Each destroyed asteroid adds its tier's points. */
  lemma PointsAppend(ds: seq<Asteroid>, a: Asteroid)
    ensures Points(ds + [a]) == Points(ds) + TierPoints(a.tier)
    ensures PoolDelta(ds + [a]) == PoolDelta(ds) + (if a.tier > 1 then 1 else -1)
  {
    assert (ds + [a])[..|ds|] == ds;
  }

  /** The example of the wrap rule: an asteroid standing still at x = -60 on
      an 800-wide field reappears at x = 850. */
  lemma WrapExample(a: Asteroid)
    requires a.pos.x == -60.0 && a.vel.x == 0.0
    ensures StepAsteroid(a, 800.0, 600.0).pos.x == 850.0
  {}

  /** The wrap rule never lets a bullet leave the screen. */
  lemma BulletsStayOnScreen(b: Bullet, width: real, height: real)
    requires 0.0 <= width && 0.0 <= height
    ensures 0.0 <= StepBullet(b, width, height).pos.x <= width
    ensures 0.0 <= StepBullet(b, width, height).pos.y <= height
  {}

  /** The bullet `forEach`: every bullet moved, aged and wrapped. */
  function MovedBullets(bs: seq<Bullet>, width: real, height: real): (r: seq<Bullet>)
    requires 0.0 <= width && 0.0 <= height
    ensures |r| == |bs|
  {
    seq(|bs|, k requires 0 <= k < |bs| => StepBullet(bs[k], width, height))
  }

  /** The asteroid `forEach`: every asteroid moved, turned and wrapped. */
  function MovedAsteroids(rs: seq<Asteroid>, width: real, height: real): (r: seq<Asteroid>)
    requires 0.0 <= width && 0.0 <= height
    ensures |r| == |rs|
  {
    seq(|rs|, k requires 0 <= k < |rs| => StepAsteroid(rs[k], width, height))
  }

  /** The pools, the id counter and the points after the moving and hitting
      part of `updatePhysics`: the spent bullets are dropped, both pools
      move, then every remaining bullet takes its turn in order. */
  function PhysicsNext(m: MathLib, bullets: seq<Bullet>, roids: seq<Asteroid>, id: int,
                       width: real, height: real, draws: int -> AsteroidDraw): HitState
    requires 0.0 <= width && 0.0 <= height
  {
    var live := Live(bullets);
    HitPass(EngineRules(m, draws), MovedBullets(live, width, height), MovedAsteroids(roids, width, height), id, |live|)
  }

  /** The bullet `fireBullet` pushes: at the ship's nose, moving at 10 along
      the heading plus the ship's own velocity, with 60 frames to live. */
  function NoseBullet(m: MathLib, id: int, shipPos: Vec, shipRotation: real, shipVel: Vec): (b: Bullet)
    ensures b.id == id && b.life == BULLET_LIFE
  {
    Bullet(id,
           Vec(shipPos.x + m.cos(shipRotation) * NOSE_OFFSET, shipPos.y + m.sin(shipRotation) * NOSE_OFFSET),
           Vec(m.cos(shipRotation) * BULLET_SPEED + shipVel.x, m.sin(shipRotation) * BULLET_SPEED + shipVel.y),
           BULLET_LIFE)
  }

  class ArcadeEngine {
    var bullets: seq<Bullet>
    var asteroids: seq<Asteroid>
    var idCounter: int
    var lastShotTime: int

    /** Every id in either pool was issued by the shared counter. */
    ghost predicate Valid()
      reads this
    {
      0 <= idCounter
      && (forall k :: 0 <= k < |bullets| ==> bullets[k].id < idCounter)
      && (forall k :: 0 <= k < |asteroids| ==> asteroids[k].id < idCounter)
    }

    constructor ()
      ensures Valid()
      ensures bullets == [] && asteroids == [] && idCounter == 0 && lastShotTime == 0
    {
      bullets := [];
      asteroids := [];
      idCounter := 0;
      lastShotTime := 0;
    }

    /** `createAsteroid(x, y, tier)`: one new asteroid with the next id. */
    method CreateAsteroid(m: MathLib, pos: Vec, tier: int, draws: int -> AsteroidDraw)
      requires Valid()
      modifies this
      ensures Valid()
      ensures asteroids == old(asteroids) + [MakeAsteroid(m, old(idCounter), pos, tier, draws(old(idCounter)))]
      ensures idCounter == old(idCounter) + 1
      ensures bullets == old(bullets) && lastShotTime == old(lastShotTime)
    {
      asteroids := asteroids + [MakeAsteroid(m, idCounter, pos, tier, draws(idCounter))];
      idCounter := idCounter + 1;
    }

    /** `spawnAsteroids(count, width, height)`: `count` tier-3 asteroids, each
        at the first remaining sample outside the safe zone. */
    /** One turn of the spawning loop: the next accepted position becomes a
        large asteroid appended to the pool. */
    method SpawnNext(m: MathLib, j: nat, width: real, height: real, samples: seq<Vec>,
                     draws: int -> AsteroidDraw, ghost id0: int, ghost base: seq<Asteroid>,
                     ghost done: seq<Vec>)
      returns (j': nat, ghost done': seq<Vec>)
      requires Valid()
      requires j <= |samples| && 0 < |Accepted(samples[j..], width, height)|
      requires idCounter == id0 + |done| && asteroids == base + Wave(m, id0, done, draws)
      modifies this
      ensures Valid()
      ensures j' <= |samples| && |done'| == |done| + 1
      ensures done + Accepted(samples[j..], width, height) == done' + Accepted(samples[j'..], width, height)
      ensures idCounter == old(idCounter) + 1
      ensures asteroids == base + Wave(m, id0, done', draws)
      ensures bullets == old(bullets) && lastShotTime == old(lastShotTime)
    {
      ghost var rest := Accepted(samples[j..], width, height);
      var n := NextAccepted(samples, j, width, height);
      var p := SamplePos(samples[n], width, height);
      ghost var tail := Accepted(samples[n + 1..], width, height);
      assert rest == [p] + tail;
      assert done + rest == (done + [p]) + tail;
      WaveAppend(m, id0, done, p, draws);
      CreateAsteroid(m, p, 3, draws);
      assert asteroids == (base + Wave(m, id0, done, draws)) + [MakeAsteroid(m, id0 + |done|, p, 3, draws(id0 + |done|))];
      done' := done + [p];
      j' := n + 1;
    }

    method SpawnAsteroids(m: MathLib, count: nat, width: real, height: real,
                          samples: seq<Vec>, draws: int -> AsteroidDraw)
      requires Valid()
      requires count <= |Accepted(samples, width, height)|
      modifies this
      ensures Valid()
      ensures idCounter == old(idCounter) + count
      ensures asteroids == old(asteroids) + Wave(m, old(idCounter), Accepted(samples, width, height)[..count], draws)
      ensures bullets == old(bullets) && lastShotTime == old(lastShotTime)
    {
      ghost var all := Accepted(samples, width, height);
      ghost var done: seq<Vec> := [];
      var i, j := 0, 0;
      while i < count
        invariant 0 <= i <= count && 0 <= j <= |samples|
        invariant Valid()
        invariant |done| == i && all == done + Accepted(samples[j..], width, height)
        invariant idCounter == old(idCounter) + i
        invariant asteroids == old(asteroids) + Wave(m, old(idCounter), done, draws)
        invariant bullets == old(bullets) && lastShotTime == old(lastShotTime)
      {
        j, done := SpawnNext(m, j, width, height, samples, draws, old(idCounter), old(asteroids), done);
        i := i + 1;
      }
      assert all[..count] == done;
    }

    /** `fireBullet`: at most one new bullet from the ship's nose, at most one
        per 250 ms, none once the game is over. */
    method FireBullet(m: MathLib, shipPos: Vec, shipRotation: real, shipVel: Vec,
                      gameOver: bool, now: int)
      requires Valid()
      modifies this
      ensures Valid()
      ensures asteroids == old(asteroids)
      ensures gameOver || now - old(lastShotTime) < FIRE_INTERVAL ==>
        bullets == old(bullets) && idCounter == old(idCounter) && lastShotTime == old(lastShotTime)
      ensures !gameOver && now - old(lastShotTime) >= FIRE_INTERVAL ==>
        && lastShotTime == now
        && idCounter == old(idCounter) + 1
        && bullets == old(bullets) + [NoseBullet(m, old(idCounter), shipPos, shipRotation, shipVel)]
    {
      if gameOver {
        return;
      }
      if now - lastShotTime < FIRE_INTERVAL {
        return;
      }
      lastShotTime := now;
      var tip := Vec(shipPos.x + m.cos(shipRotation) * NOSE_OFFSET, shipPos.y + m.sin(shipRotation) * NOSE_OFFSET);
      var vel := Vec(m.cos(shipRotation) * BULLET_SPEED + shipVel.x, m.sin(shipRotation) * BULLET_SPEED + shipVel.y);
      bullets := bullets + [Bullet(idCounter, tip, vel, BULLET_LIFE)];
      idCounter := idCounter + 1;
    }

    /** The bullet `forEach`: every bullet moved, aged and wrapped. */
    method MoveBullets(width: real, height: real)
      requires Valid() && 0.0 <= width && 0.0 <= height
      modifies this
      ensures Valid()
      ensures |bullets| == |old(bullets)|
      ensures forall k :: 0 <= k < |bullets| ==> bullets[k] == StepBullet(old(bullets)[k], width, height)
      ensures bullets == MovedBullets(old(bullets), width, height)
      ensures asteroids == old(asteroids) && idCounter == old(idCounter) && lastShotTime == old(lastShotTime)
    {
      var i := 0;
      while i < |bullets|
        invariant 0 <= i <= |bullets| == |old(bullets)|
        invariant Valid()
        invariant forall k :: 0 <= k < i ==> bullets[k] == StepBullet(old(bullets)[k], width, height)
        invariant forall k :: i <= k < |bullets| ==> bullets[k] == old(bullets)[k]
        invariant asteroids == old(asteroids) && idCounter == old(idCounter) && lastShotTime == old(lastShotTime)
      {
        bullets := bullets[i := StepBullet(bullets[i], width, height)];
        i := i + 1;
      }
    }

    /** The asteroid `forEach`: every asteroid moved, turned and wrapped. */
    method MoveAsteroids(width: real, height: real)
      requires Valid() && 0.0 <= width && 0.0 <= height
      modifies this
      ensures Valid()
      ensures |asteroids| == |old(asteroids)|
      ensures forall k :: 0 <= k < |asteroids| ==> asteroids[k] == StepAsteroid(old(asteroids)[k], width, height)
      ensures asteroids == MovedAsteroids(old(asteroids), width, height)
      ensures bullets == old(bullets) && idCounter == old(idCounter) && lastShotTime == old(lastShotTime)
    {
      var i := 0;
      while i < |asteroids|
        invariant 0 <= i <= |asteroids| == |old(asteroids)|
        invariant Valid()
        invariant forall k :: 0 <= k < i ==> asteroids[k] == StepAsteroid(old(asteroids)[k], width, height)
        invariant forall k :: i <= k < |asteroids| ==> asteroids[k] == old(asteroids)[k]
        invariant bullets == old(bullets) && idCounter == old(idCounter) && lastShotTime == old(lastShotTime)
      {
        asteroids := asteroids[i := StepAsteroid(asteroids[i], width, height)];
        i := i + 1;
      }
    }

    /** One hit: the asteroid at index `k` is removed, and a tier above 1
        splits into two asteroids of the next tier at the same place. */
    method Destroy(m: MathLib, k: int, draws: int -> AsteroidDraw) returns (gain: int)
      requires Valid() && 0 <= k < |asteroids|
      modifies this
      ensures Valid()
      ensures gain == TierPoints(old(asteroids)[k].tier)
      ensures asteroids == Shattered(EngineRules(m, draws).make, old(asteroids), k, old(idCounter))
      ensures idCounter == IdAfter(old(asteroids)[k], old(idCounter))
      ensures bullets == old(bullets) && lastShotTime == old(lastShotTime)
    {
      var a := asteroids[k];
      asteroids := asteroids[..k] + asteroids[k + 1..];
      gain := TierPoints(a.tier);
      if a.tier > 1 {
        CreateAsteroid(m, a.pos, a.tier - 1, draws);
        CreateAsteroid(m, a.pos, a.tier - 1, draws);
      }
    }

    /** The bullet-asteroid pass: each bullet with life left, in order,
        destroys the highest-index asteroid it hits, if any, and is spent;
        the pools, the counter and the points become those of `HitPass`. */
    /** One bullet's turn of the hit loop: a live bullet that reaches an
        asteroid loses its life and destroys the last asteroid it reaches. */
    method HitTurn(m: MathLib, i: nat, width: real, height: real, draws: int -> AsteroidDraw,
                   gain0: int, ghost destroyed0: seq<Asteroid>)
      returns (scoreGain: int, ghost destroyed: seq<Asteroid>)
      requires Valid() && i < |bullets|
      requires forall k :: 0 <= k < |asteroids| ==> InField(asteroids[k].pos, -WRAP_MARGIN, width, height)
      modifies this
      ensures Valid()
      ensures HitState(bullets, asteroids, idCounter, scoreGain, destroyed)
        == HitStep(EngineRules(m, draws), HitState(old(bullets), old(asteroids), old(idCounter), gain0, destroyed0), i)
      ensures forall k :: 0 <= k < |asteroids| ==> InField(asteroids[k].pos, -WRAP_MARGIN, width, height)
      ensures lastShotTime == old(lastShotTime)
    {
      scoreGain, destroyed := gain0, destroyed0;
      var b := bullets[i];
      if b.life > 0 {
        var k := LastHitIndex(m, b, asteroids);
        if k >= 0 {
          var a := asteroids[k];
          ShatteredInField(m, draws, asteroids, k, idCounter, width, height);
          bullets := bullets[i := b.(life := 0)];
          var gain := Destroy(m, k, draws);
          destroyed := destroyed + [a];
          scoreGain := scoreGain + gain;
        }
      }
    }

    method ResolveHits(m: MathLib, width: real, height: real, draws: int -> AsteroidDraw)
      returns (scoreGain: int, ghost destroyed: seq<Asteroid>)
      requires Valid()
      requires forall k :: 0 <= k < |asteroids| ==> InField(asteroids[k].pos, -WRAP_MARGIN, width, height)
      modifies this
      ensures Valid()
      ensures var r := HitPass(EngineRules(m, draws), old(bullets), old(asteroids), old(idCounter), |old(bullets)|);
        && bullets == r.bullets && asteroids == r.roids && idCounter == r.nextId
        && scoreGain == r.gain && destroyed == r.destroyed
      ensures scoreGain == Points(destroyed)
      ensures |asteroids| == |old(asteroids)| + PoolDelta(destroyed)
      ensures |bullets| == |old(bullets)|
      ensures forall k :: 0 <= k < |bullets| ==>
        bullets[k] == old(bullets)[k] || (old(bullets)[k].life > 0 && bullets[k] == old(bullets)[k].(life := 0))
      ensures |destroyed| == Spent(old(bullets), bullets, |bullets|)
      ensures forall k :: 0 <= k < |asteroids| ==> InField(asteroids[k].pos, -WRAP_MARGIN, width, height)
      ensures lastShotTime == old(lastShotTime)
    {
      scoreGain := 0;
      destroyed := [];
      var i := 0;
      while i < |bullets|
        invariant 0 <= i <= |bullets| == |old(bullets)|
        invariant Valid()
        invariant HitState(bullets, asteroids, idCounter, scoreGain, destroyed)
          == HitPass(EngineRules(m, draws), old(bullets), old(asteroids), old(idCounter), i)
        invariant forall k :: 0 <= k < |asteroids| ==> InField(asteroids[k].pos, -WRAP_MARGIN, width, height)
        invariant lastShotTime == old(lastShotTime)
      {
        ghost var s := HitState(bullets, asteroids, idCounter, scoreGain, destroyed);
        scoreGain, destroyed := HitTurn(m, i, width, height, draws, scoreGain, destroyed);
        assert HitPass(EngineRules(m, draws), old(bullets), old(asteroids), old(idCounter), i + 1)
          == HitStep(EngineRules(m, draws), s, i);
        i := i + 1;
      }
      HitPassBullets(EngineRules(m, draws), old(bullets), old(asteroids), old(idCounter), |old(bullets)|);
      HitPassTotals(EngineRules(m, draws), old(bullets), old(asteroids), old(idCounter), |old(bullets)|);
      HitPassSpent(EngineRules(m, draws), old(bullets), old(asteroids), old(idCounter), |old(bullets)|);
    }

    /** `updatePhysics`: one tick of the minigame. The pools, the counter
        and the points become those of `PhysicsNext`; the ship collides
        when the game is not over and some asteroid of the new pool is
        within its reach. */
    method UpdatePhysics(m: MathLib, width: real, height: real, shipPos: Vec, gameOver: bool,
                         draws: int -> AsteroidDraw)
      returns (collision: bool, scoreGain: int, ghost destroyed: seq<Asteroid>)
      requires Valid() && 0.0 <= width && 0.0 <= height
      modifies this
      ensures Valid()
      ensures var r := PhysicsNext(m, old(bullets), old(asteroids), old(idCounter), width, height, draws);
        && bullets == r.bullets && asteroids == r.roids && idCounter == r.nextId
        && scoreGain == r.gain && destroyed == r.destroyed
      ensures |bullets| == |Live(old(bullets))|
      ensures forall k :: 0 <= k < |bullets| ==>
        InField(bullets[k].pos, 0.0, width, height)
        && (bullets[k].life == Live(old(bullets))[k].life - 1 || bullets[k].life == 0)
        && bullets[k].id == Live(old(bullets))[k].id
      ensures forall k :: 0 <= k < |asteroids| ==> InField(asteroids[k].pos, -WRAP_MARGIN, width, height)
      ensures scoreGain == Points(destroyed)
      ensures |asteroids| == |old(asteroids)| + PoolDelta(destroyed)
      ensures |destroyed| <= |bullets|
      ensures collision <==> ShipCrash(m, shipPos, gameOver, asteroids)
      ensures lastShotTime == old(lastShotTime)
    {
      bullets := Live(bullets);
      ghost var live := bullets;
      MoveBullets(width, height);
      MoveAsteroids(width, height);
      ghost var moved := bullets;
      scoreGain, destroyed := ResolveHits(m, width, height, draws);
      SpentAtMost(moved, bullets, |bullets|);
      collision := false;
      if !gameOver {
        collision := ShipCollides(m, shipPos, asteroids);
      }
    }

    /** `reset`: both pools emptied; the id counter and the shot clock keep their values. */
    method Reset()
      requires Valid()
      modifies this
      ensures Valid()
      ensures bullets == [] && asteroids == []
      ensures idCounter == old(idCounter) && lastShotTime == old(lastShotTime)
    {
      bullets := [];
      asteroids := [];
    }
  }
}
