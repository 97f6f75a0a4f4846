/** The vertical shooter minigame engine (`useRaidenEngine`).

    `stateRef.current` is the `state` field of `RaidenEngine`, a value record
    the methods rebuild field by field; `idCounter` is the id counter shared by
    every spawned entity. `updatePhysics` runs its steps in the source's order,
    each step a method of its own. Every `Math.random()` value is read from
    `Dice`, keyed by the id of the entity being created (the powerup drop roll
    by the id of the enemy that was destroyed). Colours and sounds are left
    out. */
module Raiden {
  import opened Geometry
  import opened Seqs

  /** `a.map(f)`, or a `forEach` that rewrites every element by `f`. */
  function Map<A, B>(f: A -> B, s: seq<A>): (r: seq<B>)
    ensures |r| == |s| && forall k :: 0 <= k < |s| ==> r[k] == f(s[k])
  {
    if s == [] then [] else Map(f, s[..|s| - 1]) + [f(s[|s| - 1])]
  }


  datatype EnemyKind = Scout | Interceptor | Heavy

  datatype PowerKind = Health | Spread | Speed | Shield

  datatype Player = Player(
    pos: Vec, hp: int, maxHp: int, cooldown: int,
    weaponLevel: int, speedLevel: int, shield: int)

  datatype Enemy = Enemy(
    id: int, pos: Vec, kind: EnemyKind, hp: int, maxHp: int,
    width: real, height: real, vel: Vec, cooldown: int)

  datatype Shot = Shot(id: int, pos: Vec, vel: Vec, isPlayer: bool, damage: int)

  datatype Particle = Particle(id: int, pos: Vec, vel: Vec, life: real, maxLife: real, size: real)

  datatype PowerUp = PowerUp(id: int, pos: Vec, vy: real, kind: PowerKind)

  datatype RaidenState = RaidenState(
    player: Player, enemies: seq<Enemy>, bullets: seq<Shot>,
    particles: seq<Particle>, powerups: seq<PowerUp>,
    score: int, gameOver: bool, scroll: int, waveTimer: int)

  /** What `updatePhysics` hands back to the host. */
  datatype Report = Report(score: int, hp: int, shield: int, gameOver: bool)

  /** The random values `spawnEnemy` draws: type, x position, interceptor direction. */
  datatype EnemyDraw = EnemyDraw(kind: real, x: real, dir: real)

  /** The random values one particle of `spawnParticle` draws. */
  datatype ParticleDraw = ParticleDraw(angle: real, speed: real, life: real, size: real)

  datatype Dice = Dice(
    enemy: int -> EnemyDraw, particle: int -> ParticleDraw,
    power: int -> real, drop: int -> real)

  const MAX_HP: int := 100
  const MAX_LEVEL: int := 3
  const MAX_SHIELD: int := 100
  const SPAWN_INTERVAL: int := 60
  const BULLET_SPEED: real := 15.0
  const VOLLEY_COOLDOWN: int := 8
  const HEAVY_COOLDOWN: int := 120
  const PICKUP_RADIUS: real := 30.0
  const EDGE: real := 20.0
  const RAM_DAMAGE: int := 20
  const SHOT_DAMAGE: int := 10
  const DROP_CHANCE: real := 0.15

  // ---------------------------------------------------------------- spawning

  /** `['scout', 'scout', 'interceptor', 'heavy'][Math.floor(r * 4)]`; an index
      outside the table yields a type that is neither heavy nor interceptor,
      which the engine then treats as a scout. */
  function KindOf(r: real): EnemyKind {
    var k := (r * 4.0).Floor;
    if k == 3 then Heavy else if k == 2 then Interceptor else Scout
  }

  function KindHp(k: EnemyKind): int {
    match k
    case Heavy => 5
    case Interceptor => 2
    case Scout => 1
  }

  function KillPoints(k: EnemyKind): int {
    match k
    case Heavy => 50
    case Interceptor => 20
    case Scout => 10
  }

  /** The enemy `spawnEnemy(width)` pushes when it is given `id`. */
  function MakeEnemy(id: int, width: real, d: EnemyDraw): (e: Enemy)
    ensures e.id == id && e.kind == KindOf(d.kind)
    ensures e.hp == e.maxHp == KindHp(e.kind)
    ensures e.pos == Vec(50.0 + d.x * (width - 100.0), -50.0) && e.cooldown == 0
    ensures e.kind == Heavy ==> e.width == 50.0 && e.height == 50.0 && e.vel == Vec(0.0, 1.0)
    ensures e.kind == Interceptor ==> e.width == 30.0 && e.vel.y == 2.5 && (e.vel.x == 2.0 || e.vel.x == -2.0)
    ensures e.kind == Scout ==> e.width == 30.0 && e.vel == Vec(0.0, 5.0)
  {
    var kind := KindOf(d.kind);
    var x := 50.0 + d.x * (width - 100.0);
    match kind
    case Heavy => Enemy(id, Vec(x, -50.0), kind, 5, 5, 50.0, 50.0, Vec(0.0, 1.0), 0)
    case Interceptor =>
      Enemy(id, Vec(x, -50.0), kind, 2, 2, 30.0, 30.0, Vec(if d.dir > 0.5 then 2.0 else -2.0, 2.5), 0)
    case Scout => Enemy(id, Vec(x, -50.0), kind, 1, 1, 30.0, 30.0, Vec(0.0, 5.0), 0)
  }

  /** The drop kind from `Math.floor(random * 4)`. A roll outside [0, 1) would
      also give Health, but a draw in [0, 1) always lands on 0..3. */
  function PowerKindOf(r: real): PowerKind {
    var k := (r * 4.0).Floor;
    if k == 1 then Spread else if k == 2 then Speed else if k == 3 then Shield else Health
  }

  /** One particle of a `spawnParticle(x, y, color, count)` burst. */
  function MakeParticle(m: MathLib, id: int, pos: Vec, d: ParticleDraw): (p: Particle)
    ensures p.id == id && p.pos == pos && p.maxLife == 50.0
    ensures 0.0 <= d.life < 1.0 ==> 30.0 <= p.life < 50.0
    ensures 0.0 <= d.size < 1.0 ==> 2.0 <= p.size < 6.0
  {
    var angle := d.angle * PI * 2.0;
    var speed := d.speed * 5.0;
    Particle(id, pos, Vec(m.cos(angle) * speed, m.sin(angle) * speed),
             30.0 + d.life * 20.0, 50.0, 2.0 + d.size * 4.0)
  }

  /** The `count` particles of one burst, numbered from `id0`. */
  function Burst(m: MathLib, pos: Vec, count: nat, id0: int, dice: Dice): (r: seq<Particle>)
    ensures |r| == count
    ensures forall k :: 0 <= k < count ==> r[k].id == id0 + k && r[k].pos == pos && r[k].maxLife == 50.0
  {
    if count == 0 then []
    else Burst(m, pos, count - 1, id0, dice) + [MakeParticle(m, id0 + count - 1, pos, dice.particle(id0 + count - 1))]
  }

  /** The powerup `spawnPowerUp(x, y)` pushes when it is given `id`. */
  function MakePowerUp(id: int, pos: Vec, dice: Dice): (p: PowerUp)
    ensures p.id == id && p.pos == pos && p.vy == 2.0
    ensures p.kind == PowerKindOf(dice.power(id))
  {
    PowerUp(id, pos, 2.0, PowerKindOf(dice.power(id)))
  }

  // ---------------------------------------------------------------- player

  /** `8 + (speedLevel - 1) * 2`. */
  function PlayerSpeed(level: int): (s: real)
    ensures 1 <= level <= MAX_LEVEL ==> 8.0 <= s <= 12.0
  {
    8.0 + (level - 1) as real * 2.0
  }

  /** Move by the input at the current speed, then clamp into `[20, size - 20]`. */
  function MovedPlayer(p: Player, inputX: real, inputY: real, width: real, height: real): (r: Player)
    ensures r == p.(pos := r.pos)
    ensures 2.0 * EDGE <= width ==> EDGE <= r.pos.x <= width - EDGE
    ensures 2.0 * EDGE <= height ==> EDGE <= r.pos.y <= height - EDGE
    ensures EDGE <= r.pos.x && EDGE <= r.pos.y
    ensures r.pos.y <= Max(EDGE, height - EDGE)
  {
    var speed := PlayerSpeed(p.speedLevel);
    var x := p.pos.x + inputX * speed;
    var y := p.pos.y + inputY * speed;
    p.(pos := Vec(ClampTo(x, EDGE, width - EDGE), ClampTo(y, EDGE, height - EDGE)))
  }

  /** The volley fired at `weaponLevel`: the centre shot, the two side
      streams from level 2, the two angled shots from level 3. */
  function Volley(pos: Vec, weaponLevel: int, id0: int): (r: seq<Shot>)
    ensures |r| == (if weaponLevel >= 3 then 5 else if weaponLevel >= 2 then 3 else 1)
    ensures forall k :: 0 <= k < |r| ==> r[k].isPlayer && r[k].damage == 1 && r[k].id == id0 + k
    ensures forall k :: 0 <= k < |r| ==> r[k].vel.y < 0.0
  {
    var up := Vec(0.0, -BULLET_SPEED);
    var centre := [Shot(id0, Vec(pos.x, pos.y - 20.0), up, true, 1)];
    var streams :=
      if weaponLevel >= 2 then
        [Shot(id0 + 1, Vec(pos.x - 10.0, pos.y - 15.0), up, true, 1),
         Shot(id0 + 2, Vec(pos.x + 10.0, pos.y - 15.0), up, true, 1)]
      else [];
    var spread :=
      if weaponLevel >= 3 then
        [Shot(id0 + 3, Vec(pos.x, pos.y - 15.0), Vec(-5.0, -BULLET_SPEED * 0.9), true, 1),
         Shot(id0 + 4, Vec(pos.x, pos.y - 15.0), Vec(5.0, -BULLET_SPEED * 0.9), true, 1)]
      else [];
    centre + streams + spread
  }

  /** `takeDamage(amount)`: the shield absorbs first; whatever it cannot
      absorb comes off the hull. */
  function TakeDamage(p: Player, amount: int): (r: Player)
    ensures r == p.(hp := r.hp, shield := r.shield)
    ensures 0 <= p.shield && 0 <= amount ==>
      r.hp + r.shield == p.hp + p.shield - amount && 0 <= r.shield <= p.shield && r.hp <= p.hp
    ensures p.shield <= 0 ==> r.shield == p.shield && r.hp == p.hp - amount
    ensures 0 < p.shield && amount <= p.shield ==> r.hp == p.hp && r.shield == p.shield - amount
  {
    if p.shield > 0 then
      var s := p.shield - amount;
      if s < 0 then p.(hp := p.hp + s, shield := 0) else p.(shield := s)
    else
      p.(hp := p.hp - amount)
  }

  /** The example of the damage rule: shield 30 and a 50-point hit leave no
      shield and take 20 off the hull. */
  lemma TakeDamageExample(p: Player)
    requires p.shield == 30
    ensures TakeDamage(p, 50).shield == 0 && TakeDamage(p, 50).hp == p.hp - 20
  {}

  /** `n` hits of `amount` each, in turn. */
  function DamageN(p: Player, amount: int, n: nat): Player {
    if n == 0 then p else TakeDamage(DamageN(p, amount, n - 1), amount)
  }

  /** `n` hits of `amount` lower hull plus shield by exactly `n * amount`. */
  lemma {:induction false} DamageNTotal(p: Player, amount: int, n: nat)
    requires 0 <= p.shield && 0 <= amount
    ensures var r := DamageN(p, amount, n);
      r.hp + r.shield == p.hp + p.shield - n * amount
      && 0 <= r.shield <= p.shield && r.hp <= p.hp && r == p.(hp := r.hp, shield := r.shield)
  {
    if n > 0 {
      DamageNTotal(p, amount, n - 1);
      assert n * amount == (n - 1) * amount + amount;
    }
  }

  /** The player after the ram pass over `es` and the enemy-shot pass over
      `bs`: 20 per ramming enemy, then 10 per enemy shot that hits. */
  function Struck(p: Player, es: seq<Enemy>, bs: seq<Shot>): Player {
    DamageN(DamageN(p, RAM_DAMAGE, RamCount(es, p.pos)), SHOT_DAMAGE, ShotCount(bs, p.pos))
  }

  /** The two passes take exactly 20 per ram and 10 per hitting shot off
      hull plus shield, the shield first, and touch nothing else. */
  lemma StruckTotal(p: Player, es: seq<Enemy>, bs: seq<Shot>)
    requires 0 <= p.shield
    ensures var r := Struck(p, es, bs);
      r.hp + r.shield == p.hp + p.shield - RAM_DAMAGE * RamCount(es, p.pos) - SHOT_DAMAGE * ShotCount(bs, p.pos)
      && 0 <= r.shield <= p.shield && r.hp <= p.hp && r == p.(hp := r.hp, shield := r.shield)
  {
    var q := DamageN(p, RAM_DAMAGE, RamCount(es, p.pos));
    DamageNTotal(p, RAM_DAMAGE, RamCount(es, p.pos));
    DamageNTotal(q, SHOT_DAMAGE, ShotCount(bs, p.pos));
  }

  /** `Math.min(cap, v)` on integers. */
  function Cap(v: int, cap: int): (r: int)
    ensures r <= cap && r <= v && (r == v || r == cap)
  {
    if v < cap then v else cap
  }

  /** A pickup's effect, each capped: health at maxHp, the levels at 3, the shield at 100. */
  function ApplyPowerUp(p: Player, k: PowerKind): (r: Player)
    ensures r.pos == p.pos && r.maxHp == p.maxHp && r.cooldown == p.cooldown
    ensures k == Health ==> r == p.(hp := Cap(p.hp + 25, p.maxHp))
    ensures k == Spread ==> r == p.(weaponLevel := Cap(p.weaponLevel + 1, MAX_LEVEL))
    ensures k == Speed ==> r == p.(speedLevel := Cap(p.speedLevel + 1, MAX_LEVEL))
    ensures k == Shield ==> r == p.(shield := Cap(p.shield + 50, MAX_SHIELD))
    ensures p.hp <= p.maxHp ==> p.hp <= r.hp <= r.maxHp
    ensures p.weaponLevel <= MAX_LEVEL ==> p.weaponLevel <= r.weaponLevel <= MAX_LEVEL
    ensures p.speedLevel <= MAX_LEVEL ==> p.speedLevel <= r.speedLevel <= MAX_LEVEL
    ensures p.shield <= MAX_SHIELD ==> p.shield <= r.shield <= MAX_SHIELD
  {
    match k
    case Health => p.(hp := Cap(p.hp + 25, p.maxHp))
    case Spread => p.(weaponLevel := Cap(p.weaponLevel + 1, MAX_LEVEL))
    case Speed => p.(speedLevel := Cap(p.speedLevel + 1, MAX_LEVEL))
    case Shield => p.(shield := Cap(p.shield + 50, MAX_SHIELD))
  }

  // ---------------------------------------------------------------- powerups

  /** `Math.hypot(player - p) < 30`. */
  predicate Near(m: MathLib, pos: Vec, pu: PowerUp) {
    Length(m, Sub(pos, pu.pos)) < PICKUP_RADIUS
  }

  /** The reverse pickup loop over the powerups as one function: the last
      powerup is looked at first; a collected one takes effect and goes, one
      past the bottom edge goes, the rest stay in order. */
  function Sweep(m: MathLib, pl: Player, ps: seq<PowerUp>, height: real): (Player, seq<PowerUp>)
    decreases |ps|
  {
    if ps == [] then (pl, [])
    else
      var last := ps[|ps| - 1];
      var near := Near(m, pl.pos, last);
      var pl1 := if near then ApplyPowerUp(pl, last.kind) else pl;
      var keep := if near || last.pos.y > height + 50.0 then [] else [last];
      var rest := Sweep(m, pl1, ps[..|ps| - 1], height);
      (rest.0, rest.1 + keep)
  }

  /** Pickups only raise the hull, the levels and the shield, each within its
      cap, and touch nothing else of the player; with nothing in reach the
      player is unchanged. */
  lemma {:induction false} SweepPlayer(m: MathLib, pl: Player, ps: seq<PowerUp>, height: real)
    ensures var r := Sweep(m, pl, ps, height).0;
      && r == pl.(hp := r.hp, weaponLevel := r.weaponLevel, speedLevel := r.speedLevel, shield := r.shield)
      && (pl.hp <= pl.maxHp ==> pl.hp <= r.hp <= pl.maxHp)
      && (pl.weaponLevel <= MAX_LEVEL ==> pl.weaponLevel <= r.weaponLevel <= MAX_LEVEL)
      && (pl.speedLevel <= MAX_LEVEL ==> pl.speedLevel <= r.speedLevel <= MAX_LEVEL)
      && (pl.shield <= MAX_SHIELD ==> pl.shield <= r.shield <= MAX_SHIELD)
      && ((forall k :: 0 <= k < |ps| ==> !Near(m, pl.pos, ps[k])) ==> r == pl)
    decreases |ps|
  {
    if ps != [] {
      var last := ps[|ps| - 1];
      var pl1 := if Near(m, pl.pos, last) then ApplyPowerUp(pl, last.kind) else pl;
      SweepPlayer(m, pl1, ps[..|ps| - 1], height);
    }
  }

  /** The powerups left are exactly those out of the player's reach that
      have not fallen more than 50 below the canvas. */
  lemma {:induction false} SweepKept(m: MathLib, pl: Player, ps: seq<PowerUp>, height: real)
    ensures forall x :: x in Sweep(m, pl, ps, height).1 <==> x in ps && !Near(m, pl.pos, x) && x.pos.y <= height + 50.0
    decreases |ps|
  {
    if ps != [] {
      var last := ps[|ps| - 1];
      var pl1 := if Near(m, pl.pos, last) then ApplyPowerUp(pl, last.kind) else pl;
      SweepKept(m, pl1, ps[..|ps| - 1], height);
      assert forall x :: x in ps <==> x in ps[..|ps| - 1] || x == last;
    }
  }

  /** One step of `Sweep`: the powerup at `i` is looked at before the ones below it. */
  lemma SweepLast(m: MathLib, pl: Player, ps: seq<PowerUp>, i: nat, height: real)
    requires i < |ps|
    ensures var p := ps[i];
      var near := Near(m, pl.pos, p);
      var pl1 := if near then ApplyPowerUp(pl, p.kind) else pl;
      var keep := if near || p.pos.y > height + 50.0 then [] else [p];
      var r := Sweep(m, pl1, ps[..i], height);
      Sweep(m, pl, ps[..i + 1], height) == (r.0, r.1 + keep)
  {
    assert ps[..i + 1][..i] == ps[..i];
  }

  // ---------------------------------------------------------------- enemies

  /** One enemy's move in the `forEach`: advance, bounce an interceptor off
      the side margins, count the cooldown down. */
  function StepEnemy(e: Enemy, width: real): (r: Enemy)
    ensures r == e.(pos := Add(e.pos, e.vel), vel := r.vel, cooldown := e.cooldown - 1)
    ensures r.vel.y == e.vel.y
    ensures r.vel.x == (if e.kind == Interceptor && (r.pos.x < 50.0 || r.pos.x > width - 50.0) then -e.vel.x else e.vel.x)
  {
    var p := Add(e.pos, e.vel);
    var vx := if e.kind == Interceptor && (p.x < 50.0 || p.x > width - 50.0) then -e.vel.x else e.vel.x;
    e.(pos := p, vel := Vec(vx, e.vel.y), cooldown := e.cooldown - 1)
  }

  /** A heavy whose cooldown ran out fires while it is inside the band
      `0 < y < height - 100`. */
  predicate HeavyFires(e: Enemy, height: real) {
    e.kind == Heavy && e.cooldown <= 0 && e.pos.y > 0.0 && e.pos.y < height - 100.0
  }

  /** The aimed shot of a heavy at `target`. */
  function AimedShot(m: MathLib, id: int, e: Enemy, target: Vec): (b: Shot)
    ensures b.id == id && !b.isPlayer && b.damage == SHOT_DAMAGE && b.pos == Vec(e.pos.x, e.pos.y + 20.0)
  {
    var angle := m.atan2(target.y - e.pos.y, target.x - e.pos.x);
    Shot(id, Vec(e.pos.x, e.pos.y + 20.0), Vec(m.cos(angle) * 5.0, m.sin(angle) * 5.0), false, SHOT_DAMAGE)
  }

  /** The enemy after its tick, with the cooldown rearmed when it fired. */
  function Advanced(e: Enemy, width: real, height: real): Enemy {
    var s := StepEnemy(e, width);
    if HeavyFires(s, height) then s.(cooldown := HEAVY_COOLDOWN) else s
  }

  /** The shots pushed by the enemy `forEach`, numbered from `id0`. */
  function EnemyShots(m: MathLib, es: seq<Enemy>, target: Vec, width: real, height: real, id0: int): seq<Shot> {
    if es == [] then []
    else
      var pre := EnemyShots(m, es[..|es| - 1], target, width, height, id0);
      var s := StepEnemy(es[|es| - 1], width);
      pre + (if HeavyFires(s, height) then [AimedShot(m, id0 + |pre|, s, target)] else [])
  }

  /** At most one shot per enemy; all of them enemy shots of 10 damage with
      consecutive ids. */
  lemma {:induction false} EnemyShotsShape(m: MathLib, es: seq<Enemy>, target: Vec, width: real, height: real, id0: int)
    ensures var r := EnemyShots(m, es, target, width, height, id0);
      && |r| <= |es|
      && forall k :: 0 <= k < |r| ==> !r[k].isPlayer && r[k].damage == SHOT_DAMAGE && r[k].id == id0 + k
  {
    if es != [] {
      EnemyShotsShape(m, es[..|es| - 1], target, width, height, id0);
    }
  }

  /** The shots of the first `k + 1` enemies: those of the first `k`, then
      the one enemy `k` fires, if it fires. */
  lemma EnemyShotsNext(m: MathLib, es: seq<Enemy>, k: nat, target: Vec, width: real, height: real, id0: int)
    requires k < |es|
    ensures var pre := EnemyShots(m, es[..k], target, width, height, id0);
      var e := StepEnemy(es[k], width);
      EnemyShots(m, es[..k + 1], target, width, height, id0)
        == pre + (if HeavyFires(e, height) then [AimedShot(m, id0 + |pre|, e, target)] else [])
  {
    assert es[..k + 1][..k] == es[..k];
  }

  /** The reverse pickup loop over `ps0` for a player `pl0`: what `Sweep` describes. */
  method PickUp(m: MathLib, pl0: Player, ps0: seq<PowerUp>, height: real) returns (pl: Player, ps: seq<PowerUp>)
    ensures (pl, ps) == Sweep(m, pl0, ps0, height)
  {
    pl := pl0;
    ps := ps0;
    ghost var goal := Sweep(m, pl0, ps0, height);
    var i := |ps|;
    assert ps0[..i] == ps0;
    assert goal.1 + ps[i..] == goal.1;
    while i > 0
      invariant 0 <= i <= |ps|
      invariant ps[..i] == ps0[..i]
      invariant goal.0 == Sweep(m, pl, ps0[..i], height).0
      invariant goal.1 == Sweep(m, pl, ps0[..i], height).1 + ps[i..]
    {
      ghost var before := ps;
      ghost var R := Sweep(m, pl, ps0[..i], height);
      ghost var pl1 := pl;
      i := i - 1;
      var p := ps[i];
      assert p == ps0[i] by { assert ps0[..i + 1][i] == before[..i + 1][i]; }
      SweepLast(m, pl, ps0, i, height);
      ghost var keep: seq<PowerUp> := if Near(m, pl.pos, p) || p.pos.y > height + 50.0 then [] else [p];
      if Near(m, pl.pos, p) {
        pl := ApplyPowerUp(pl, p.kind);
        ps := RemoveAt(ps, i);
      } else if p.pos.y > height + 50.0 {
        ps := RemoveAt(ps, i);
      }
      ghost var r' := Sweep(m, pl, ps0[..i], height);
      assert R == (r'.0, r'.1 + keep);
      assert ps[i..] == keep + before[i + 1..];
      assert ps[..i] == before[..i];
      Seqs.AppendAssoc(r'.1, keep, before[i + 1..]);
    }
    assert ps0[..0] == [] && ps[0..] == ps;
    assert Sweep(m, pl, [], height) == (pl, []);
    assert goal.0 == pl && goal.1 == ps;
  }

  /** The enemy `forEach`: each enemy advances; a heavy in the firing band
      whose cooldown ran out fires an aimed shot at `target` and rearms at
      120. The shots are numbered from `id0`. */
  method AdvanceEnemies(m: MathLib, es0: seq<Enemy>, target: Vec, width: real, height: real, id0: int)
    returns (es: seq<Enemy>, shots: seq<Shot>)
    ensures |es| == |es0|
    ensures forall k :: 0 <= k < |es| ==> es[k] == Advanced(es0[k], width, height)
    ensures shots == EnemyShots(m, es0, target, width, height, id0)
    ensures |shots| <= |es0|
    ensures forall k :: 0 <= k < |shots| ==> !shots[k].isPlayer && shots[k].damage == SHOT_DAMAGE && shots[k].id == id0 + k
  {
    es := es0;
    shots := [];
    var id := id0;
    var k := 0;
    while k < |es|
      invariant 0 <= k <= |es| == |es0|
      invariant forall q :: 0 <= q < k ==> es[q] == Advanced(es0[q], width, height)
      invariant forall q :: k <= q < |es| ==> es[q] == es0[q]
      invariant shots == EnemyShots(m, es0[..k], target, width, height, id0)
      invariant id == id0 + |shots|
    {
      EnemyShotsNext(m, es0, k, target, width, height, id0);
      var e := StepEnemy(es[k], width);
      if HeavyFires(e, height) {
        shots := shots + [AimedShot(m, id, e, target)];
        id := id + 1;
        e := e.(cooldown := HEAVY_COOLDOWN);
      }
      es := es[k := e];
      k := k + 1;
    }
    assert es0[..k] == es0;
    EnemyShotsShape(m, es0, target, width, height, id0);
  }

  /** Advancing keeps every enemy's hit points. */
  lemma AdvancedAlive(es0: seq<Enemy>, es: seq<Enemy>, width: real, height: real)
    requires EnemiesAlive(es0) && |es| == |es0|
    requires forall k :: 0 <= k < |es| ==> es[k] == Advanced(es0[k], width, height)
    ensures EnemiesAlive(es)
  {
    forall x | x in es
      ensures 0 < x.hp <= x.maxHp
    {
      var q :| 0 <= q < |es| && es[q] == x;
      assert es0[q] in es0;
    }
  }

  /** Sum of the enemies' hit points. */
  function TotalHp(es: seq<Enemy>): int {
    if es == [] then 0 else TotalHp(es[..|es| - 1]) + es[|es| - 1].hp
  }

  lemma {:induction false} TotalHpUpdate(es: seq<Enemy>, j: nat, e: Enemy)
    requires j < |es|
    ensures TotalHp(es[j := e]) == TotalHp(es) - es[j].hp + e.hp
  {
    if j < |es| - 1 {
      assert es[j := e][..|es| - 1] == es[..|es| - 1][j := e];
      TotalHpUpdate(es[..|es| - 1], j, e);
    } else {
      assert es[j := e][..|es| - 1] == es[..|es| - 1];
    }
  }

  lemma {:induction false} TotalHpRemove(es: seq<Enemy>, j: nat)
    requires j < |es|
    ensures TotalHp(RemoveAt(es, j)) == TotalHp(es) - es[j].hp
  {
    if j < |es| - 1 {
      assert RemoveAt(es, j)[..|es| - 2] == RemoveAt(es[..|es| - 1], j);
      TotalHpRemove(es[..|es| - 1], j);
    } else {
      assert RemoveAt(es, j) == es[..|es| - 1];
    }
  }

  /** Score for a list of destroyed enemies. */
  function KillScore(ks: seq<Enemy>): (r: int)
    ensures 0 <= r
  {
    if ks == [] then 0 else KillScore(ks[..|ks| - 1]) + KillPoints(ks[|ks| - 1].kind)
  }

  lemma KillScoreAppend(ks: seq<Enemy>, e: Enemy)
    ensures KillScore(ks + [e]) == KillScore(ks) + KillPoints(e.kind)
  {
    assert (ks + [e])[..|ks|] == ks;
  }

  /** A player shot touches an enemy's box widened by 5. */
  predicate ShotHitsEnemy(b: Shot, e: Enemy) {
    Abs(b.pos.x - e.pos.x) < e.width / 2.0 + 5.0 && Abs(b.pos.y - e.pos.y) < e.height / 2.0 + 5.0
  }

  /** `x` is an enemy of `es0`, possibly with fewer hit points. */
  predicate Worn(x: Enemy, es0: seq<Enemy>) {
    exists y :: y in es0 && x == y.(hp := x.hp) && x.hp <= y.hp
  }

  /** Every enemy of `es` is one of `es0`, possibly worn down. */
  predicate WornFrom(es: seq<Enemy>, es0: seq<Enemy>) {
    forall x :: x in es ==> Worn(x, es0)
  }

  /** Shot `b` touches no enemy of `es`. */
  predicate Misses(b: Shot, es: seq<Enemy>) {
    forall x :: x in es ==> !ShotHitsEnemy(b, x)
  }

  lemma WornTrans(es2: seq<Enemy>, es1: seq<Enemy>, es0: seq<Enemy>)
    requires WornFrom(es2, es1) && WornFrom(es1, es0)
    ensures WornFrom(es2, es0)
  {
    forall x | x in es2
      ensures Worn(x, es0)
    {
      var y :| y in es1 && x == y.(hp := x.hp) && x.hp <= y.hp;
      var z :| z in es0 && y == z.(hp := y.hp) && y.hp <= z.hp;
      assert x == z.(hp := x.hp);
    }
  }

  /** Wearing enemies down moves none of them, so a shot that missed them all still does. */
  lemma MissesWorn(b: Shot, es: seq<Enemy>, es': seq<Enemy>)
    requires Misses(b, es) && WornFrom(es', es)
    ensures Misses(b, es')
  {
    forall x | x in es'
      ensures !ShotHitsEnemy(b, x)
    {
      var y :| y in es && x == y.(hp := x.hp) && x.hp <= y.hp;
    }
  }

  /** The player rams an enemy: boxes closer than 20 plus half the enemy's size. */
  predicate Rams(pos: Vec, e: Enemy) {
    Abs(pos.x - e.pos.x) < 20.0 + e.width / 2.0 && Abs(pos.y - e.pos.y) < 20.0 + e.height / 2.0
  }

  /** An enemy shot within 15 of the player on both axes. */
  predicate ShotHitsPlayer(pos: Vec, b: Shot) {
    Abs(pos.x - b.pos.x) < 15.0 && Abs(pos.y - b.pos.y) < 15.0
  }

  /** A shot that hits a player kept on the canvas is itself at most 50
      below the bottom edge. */
  lemma HitShotOnCanvas(pos: Vec, b: Shot, height: real)
    requires 0.0 <= height && pos.y <= Max(EDGE, height - EDGE) && ShotHitsPlayer(pos, b)
    ensures b.pos.y <= height + 50.0
  {}

  /** How many of `es` the player at `pos` rams. */
  function RamCount(es: seq<Enemy>, pos: Vec): (n: nat)
    ensures n <= |es|
  {
    if es == [] then 0 else RamCount(es[..|es| - 1], pos) + (if Rams(pos, es[|es| - 1]) then 1 else 0)
  }

  /** How many enemy shots of `bs` hit the player at `pos`. */
  function ShotCount(bs: seq<Shot>, pos: Vec): (n: nat)
    ensures n <= |bs|
  {
    if bs == [] then 0 else (if !bs[0].isPlayer && ShotHitsPlayer(pos, bs[0]) then 1 else 0) + ShotCount(bs[1..], pos)
  }

  /** The ids of the enemies of `es` the player at `pos` rams. */
  function RammedIds(es: seq<Enemy>, pos: Vec): set<int> {
    if es == [] then {}
    else RammedIds(es[..|es| - 1], pos) + (if Rams(pos, es[|es| - 1]) then {es[|es| - 1].id} else {})
  }

  /** Counting and collecting one more enemy. */
  lemma RamNext(es: seq<Enemy>, k: nat, pos: Vec)
    requires k < |es|
    ensures RammedIds(es[..k + 1], pos) == RammedIds(es[..k], pos) + (if Rams(pos, es[k]) then {es[k].id} else {})
    ensures RamCount(es[..k + 1], pos) == RamCount(es[..k], pos) + (if Rams(pos, es[k]) then 1 else 0)
  {
    assert es[..k + 1][..k] == es[..k];
  }

  /** Every rammed enemy's id is among the rammed ids. */
  lemma {:induction false} RammedIdsCover(es: seq<Enemy>, pos: Vec)
    ensures forall x :: x in es && Rams(pos, x) ==> x.id in RammedIds(es, pos)
  {
    if es != [] {
      RammedIdsCover(es[..|es| - 1], pos);
      assert forall x :: x in es ==> x in es[..|es| - 1] || x == es[|es| - 1];
    }
  }

  /** `enemies.filter(en => en.id !== id)`. */
  function RemoveId(es: seq<Enemy>, id: int): (r: seq<Enemy>)
    ensures forall x :: x in r <==> x in es && x.id != id
  {
    if es == [] then [] else
      assert forall x :: x in es <==> x in es[..|es| - 1] || x == es[|es| - 1];
      RemoveId(es[..|es| - 1], id) + (if es[|es| - 1].id != id then [es[|es| - 1]] else [])
  }

  /** `enemies.filter(e => e.y < height + 100)`. */
  function OnScreen(es: seq<Enemy>, height: real): (r: seq<Enemy>)
    ensures forall x :: x in r <==> x in es && x.pos.y < height + 100.0
  {
    if es == [] then [] else
      assert forall x :: x in es <==> x in es[..|es| - 1] || x == es[|es| - 1];
      OnScreen(es[..|es| - 1], height) + (if es[|es| - 1].pos.y < height + 100.0 then [es[|es| - 1]] else [])
  }

  function StepParticle(p: Particle): Particle {
    p.(pos := Add(p.pos, p.vel), life := p.life - 1.0)
  }

  /** `particles.filter(p => p.life > 0)`. */
  function Alive(ps: seq<Particle>): (r: seq<Particle>)
    ensures forall x :: x in r <==> x in ps && x.life > 0.0
  {
    if ps == [] then [] else
      assert forall x :: x in ps <==> x in ps[..|ps| - 1] || x == ps[|ps| - 1];
      Alive(ps[..|ps| - 1]) + (if ps[|ps| - 1].life > 0.0 then [ps[|ps| - 1]] else [])
  }

  /** The reverse search as a function: the index of the last enemy of `es`
      that `b` touches, or -1. */
  function LastTouched(b: Shot, es: seq<Enemy>): (j: int)
    ensures -1 <= j < |es|
    ensures 0 <= j ==> ShotHitsEnemy(b, es[j])
    ensures forall q :: j < q < |es| ==> !ShotHitsEnemy(b, es[q])
    decreases |es|
  {
    if es == [] then -1
    else if ShotHitsEnemy(b, es[|es| - 1]) then |es| - 1
    else LastTouched(b, es[..|es| - 1])
  }

  /** The reverse search over the enemies for the first one (from the end) a shot touches. */
  method LastEnemyHit(b: Shot, es: seq<Enemy>) returns (j: int)
    ensures -1 <= j < |es|
    ensures 0 <= j ==> ShotHitsEnemy(b, es[j])
    ensures forall q :: j < q < |es| ==> !ShotHitsEnemy(b, es[q])
    ensures j == LastTouched(b, es)
  {
    j := |es| - 1;
    while j >= 0
      invariant -1 <= j < |es|
      invariant forall q :: j < q < |es| ==> !ShotHitsEnemy(b, es[q])
    {
      if ShotHitsEnemy(b, es[j]) {
        return;
      }
      j := j - 1;
    }
  }

  /** A shot the reverse search finds no enemy for misses them all. */
  lemma MissAll(b: Shot, es: seq<Enemy>)
    requires forall q :: -1 < q < |es| ==> !ShotHitsEnemy(b, es[q])
    ensures Misses(b, es)
  {
    forall x | x in es
      ensures !ShotHitsEnemy(b, x)
    {
      var q :| 0 <= q < |es| && es[q] == x;
    }
  }

  /** What one shot's turn of the player-shot pass yields: whether the shot
      stays, the enemies after it, the sparks, drops, points and id counter
      it produced, whether it hit, and the enemy it destroyed, if any. */
  datatype Outcome = Outcome(keep: bool, enemies: seq<Enemy>, sparks: seq<Particle>, drops: seq<PowerUp>,
                             gain: int, id: int, hit: nat, dead: seq<Enemy>)

  /** A shot is spent at its turn when it is a player's and touches an
      enemy or has flown more than 50 above the top. */
  predicate Spent(b: Shot, es: seq<Enemy>) {
    b.isPlayer && (LastTouched(b, es) >= 0 || b.pos.y < -50.0)
  }

  /** A player shot striking enemy `j`: the enemy loses the shot's damage
      and 3 sparks fly at the shot; an enemy left with no hit points bursts
      into 10 more, leaves the list, scores its points and, under the drop
      roll, leaves a powerup; the shot is spent. */
  function Strike(m: MathLib, dice: Dice, b: Shot, es: seq<Enemy>, j: nat, id: int): Outcome
    requires j < |es|
  {
    var e := es[j];
    var hurt := e.(hp := e.hp - b.damage);
    var dies := hurt.hp <= 0;
    var sp := Burst(m, b.pos, 3, id, dice) + (if dies then Burst(m, e.pos, 10, id + 3, dice) else []);
    var dr := if dies && dice.drop(e.id) < DROP_CHANCE then [MakePowerUp(id + 13, e.pos, dice)] else [];
    Outcome(false, if dies then RemoveAt(es, j) else es[j := hurt], sp, dr,
            if dies then KillPoints(e.kind) else 0, id + |sp| + |dr|, 1, if dies then [hurt] else [])
  }

  /** One shot's turn as a function. An enemy shot is passed over; a player
      shot strikes the last enemy it touches; a player shot touching nothing
      is spent once more than 50 above the top. */
  function ShotOutcome(m: MathLib, dice: Dice, b: Shot, es: seq<Enemy>, id: int): Outcome {
    var j := LastTouched(b, es);
    if !b.isPlayer then Outcome(true, es, [], [], 0, id, 0, [])
    else if j < 0 then Outcome(!(b.pos.y < -50.0), es, [], [], 0, id, 0, [])
    else Strike(m, dice, b, es, j, id)
  }

  /** `Strike` spelled out for a live enemy hit by a 1-damage shot: it dies
      exactly when it had 1 hit point left. */
  lemma StrikeSpelled(m: MathLib, dice: Dice, b: Shot, es: seq<Enemy>, j: nat, id: int)
    requires j < |es| && 0 < es[j].hp && b.damage == 1
    ensures var dies := es[j].hp == 1;
      var sp := Burst(m, b.pos, 3, id, dice) + (if dies then Burst(m, es[j].pos, 10, id + 3, dice) else []);
      var dr := if dies && dice.drop(es[j].id) < DROP_CHANCE then [MakePowerUp(id + 13, es[j].pos, dice)] else [];
      Strike(m, dice, b, es, j, id)
        == Outcome(false, if dies then RemoveAt(es, j) else es[j := es[j].(hp := es[j].hp - 1)], sp, dr,
                   if dies then KillPoints(es[j].kind) else 0, id + |sp| + |dr|, 1,
                   if dies then [es[j].(hp := 0)] else [])
  {}

  /** The three kinds of turn `ShotOutcome` distinguishes. */
  lemma OutcomeCases(m: MathLib, dice: Dice, b: Shot, es: seq<Enemy>, id: int)
    ensures !b.isPlayer ==> ShotOutcome(m, dice, b, es, id) == Outcome(true, es, [], [], 0, id, 0, [])
    ensures b.isPlayer && LastTouched(b, es) < 0 ==>
      ShotOutcome(m, dice, b, es, id) == Outcome(!(b.pos.y < -50.0), es, [], [], 0, id, 0, [])
    ensures b.isPlayer && 0 <= LastTouched(b, es) ==>
      ShotOutcome(m, dice, b, es, id) == Strike(m, dice, b, es, LastTouched(b, es), id)
  {}

  /** A shot misses every enemy exactly when the reverse search finds none. */
  lemma MissesIff(b: Shot, es: seq<Enemy>)
    ensures Misses(b, es) <==> LastTouched(b, es) < 0
  {
    var j := LastTouched(b, es);
    if j < 0 {
      MissAll(b, es);
    } else {
      assert es[j] in es;
    }
  }

  /** A player shot that touches an enemy: the last one it touches loses a
      hit point, and dies, scores its kind and bursts into 10 more sparks
      when that was its last; the others stay as they were. */
  lemma StrikeOutcome(m: MathLib, dice: Dice, b: Shot, es: seq<Enemy>, id: int)
    requires EnemiesAlive(es) && b.isPlayer && b.damage == 1 && 0 <= LastTouched(b, es)
    ensures var o := ShotOutcome(m, dice, b, es, id);
      var e := es[LastTouched(b, es)];
      && ShotHitsEnemy(b, e) && TotalHp(o.enemies) == TotalHp(es) - 1
      && o.gain == (if e.hp == 1 then KillPoints(e.kind) else 0)
      && |o.enemies| == |es| - (if e.hp == 1 then 1 else 0)
      && |o.sparks| == 3 + (if e.hp == 1 then 10 else 0)
      && EnemiesAlive(o.enemies) && WornFrom(o.enemies, es)
  {
    var j := LastTouched(b, es);
    StrikeSpelled(m, dice, b, es, j, id);
    OutcomeCases(m, dice, b, es, id);
    assert es[j] in es;
    if es[j].hp == 1 {
      KillFacts(es, j);
    } else {
      WoundFacts(es, j);
    }
  }

  /** Removing an enemy with 1 hit point left takes that point off the sum
      and leaves live enemies of the list. */
  lemma KillFacts(es: seq<Enemy>, j: nat)
    requires j < |es| && EnemiesAlive(es) && es[j].hp == 1
    ensures var r := RemoveAt(es, j);
      TotalHp(r) == TotalHp(es) - 1 && EnemiesAlive(r) && WornFrom(r, es)
  {
    TotalHpRemove(es, j);
    RemoveAtMembers(es, j);
    assert forall x :: x in RemoveAt(es, j) ==> x in es && x == x.(hp := x.hp);
  }

  /** Wounding an enemy with more than 1 hit point takes one off the sum and
      leaves live enemies of the list, worn down. */
  lemma WoundFacts(es: seq<Enemy>, j: nat)
    requires j < |es| && EnemiesAlive(es) && es[j].hp != 1
    ensures var r := es[j := es[j].(hp := es[j].hp - 1)];
      TotalHp(r) == TotalHp(es) - 1 && EnemiesAlive(r) && WornFrom(r, es)
  {
    var hurt := es[j].(hp := es[j].hp - 1);
    assert es[j] in es;
    TotalHpUpdate(es, j, hurt);
    UpdateMembers(es, j, hurt);
    assert forall x :: x in es[j := hurt] ==> (x == hurt || (x in es && x == x.(hp := x.hp)));
  }

  /** One turn neither misses a hit nor invents one: a shot is spent exactly
      when it is a player's and touches an enemy or is more than 50 above the
      top; a touching player shot takes one hit point off the enemy list,
      scores the kind of the enemy it struck when that one dies, and keeps
      the survivors alive; a shot that touches nothing changes no enemy and
      produces nothing. */
  lemma ShotOutcomeFacts(m: MathLib, dice: Dice, b: Shot, es: seq<Enemy>, id: int)
    requires EnemiesAlive(es) && (b.isPlayer ==> b.damage == 1)
    ensures var o := ShotOutcome(m, dice, b, es, id);
      && (!o.keep <==> Spent(b, es))
      && (Spent(b, es) <==> b.isPlayer && (!Misses(b, es) || b.pos.y < -50.0))
      && (b.isPlayer && !Misses(b, es) ==>
            var e := es[LastTouched(b, es)];
            && ShotHitsEnemy(b, e) && TotalHp(o.enemies) == TotalHp(es) - 1
            && o.gain == (if e.hp == 1 then KillPoints(e.kind) else 0)
            && |o.enemies| == |es| - (if e.hp == 1 then 1 else 0)
            && |o.sparks| == 3 + (if e.hp == 1 then 10 else 0))
      && (!(b.isPlayer && !Misses(b, es)) ==>
            o.enemies == es && o.sparks == [] && o.drops == [] && o.gain == 0 && o.id == id)
      && EnemiesAlive(o.enemies) && WornFrom(o.enemies, es)
  {
    MissesIff(b, es);
    if b.isPlayer && !Misses(b, es) {
      StrikeOutcome(m, dice, b, es, id);
    } else {
      assert forall x :: x in es ==> x == x.(hp := x.hp);
    }
  }

  /** One shot's turn in the pass: a player shot strikes the last enemy it
      touches and is spent, or is dropped once more than 50 above the top,
      or else stays; an enemy shot always stays. */
  method ShotTurn(m: MathLib, b: Shot, es: seq<Enemy>, id: int, dice: Dice)
    returns (keep: bool, es': seq<Enemy>, sp: seq<Particle>, dr: seq<PowerUp>, g: int, id': int,
             ghost hit: nat, ghost dead: seq<Enemy>)
    requires EnemiesAlive(es) && (b.isPlayer ==> b.damage == 1)
    ensures Outcome(keep, es', sp, dr, g, id', hit, dead) == ShotOutcome(m, dice, b, es, id)
  {
    OutcomeCases(m, dice, b, es, id);
    keep, es', sp, dr, g, id', hit, dead := true, es, [], [], 0, id, 0, [];
    if b.isPlayer {
      var j := LastEnemyHit(b, es);
      if j >= 0 {
        es', sp, dr, g, id', dead := StrikeEnemy(m, b, es, j, id, dice);
        keep, hit := false, 1;
      } else if b.pos.y < -50.0 {
        keep := false;
      }
    }
  }

  /** The shots left after a pass's turn: shots of `bs0`, each player shot
      among them no more than 50 above the top and touching no enemy of `es`. */
  predicate ShotsAhead(t: seq<Shot>, bs0: seq<Shot>, es: seq<Enemy>) {
    forall x :: x in t ==> x in bs0 && (x.isPlayer ==> -50.0 <= x.pos.y && Misses(x, es))
  }

  /** Every enemy shot of `bs0` from index `i` on is still among `t`. */
  predicate EnemyShotsKept(bs0: seq<Shot>, i: nat, t: seq<Shot>) {
    forall k :: i <= k < |bs0| && !bs0[k].isPlayer ==> bs0[k] in t
  }

  /** A kill by one turn: when the strike finishes its enemy off, the enemy
      counted dead is one of `es0` with no hit points left. */
  lemma StrikeKeeps(b: Shot, es: seq<Enemy>, es': seq<Enemy>, es0: seq<Enemy>, j: nat, dead: seq<Enemy>,
                    rest: seq<Shot>)
    requires j < |es| && WornFrom(es, es0) && WornFrom(es', es)
    requires dead == (if es[j].hp == 1 then [es[j].(hp := 0)] else [])
    requires forall x :: x in rest && x.isPlayer ==> Misses(x, es)
    ensures WornFrom(es', es0)
    ensures forall x :: x in rest && x.isPlayer ==> Misses(x, es')
    ensures forall x :: x in dead ==> x.hp == 0 && Worn(x, es0)
  {
    WornTrans(es', es, es0);
    forall x | x in rest && x.isPlayer
      ensures Misses(x, es')
    {
      MissesWorn(x, es, es');
    }
    if es[j].hp == 1 {
      assert es[j] in es;
      var z :| z in es0 && es[j] == z.(hp := es[j].hp) && es[j].hp <= z.hp;
      assert es[j].(hp := 0) == z.(hp := 0);
    }
  }

  /** The tallies of a turn that strikes: one hit point off the enemy list,
      the enemy struck either wounded in place or removed and counted dead
      with its kill score, 3 sparks plus 10 for a kill, and a drop only for a
      kill. */
  lemma StrikeTallied(m: MathLib, dice: Dice, b: Shot, es: seq<Enemy>, id: int)
    requires EnemiesAlive(es) && b.isPlayer && b.damage == 1 && 0 <= LastTouched(b, es)
    ensures var o := ShotOutcome(m, dice, b, es, id); var j := LastTouched(b, es);
      && EnemiesAlive(o.enemies) && !o.keep && o.hit == 1 && TotalHp(o.enemies) == TotalHp(es) - 1
      && o.gain == KillScore(o.dead) && |o.enemies| + |o.dead| == |es| && |o.dead| <= 1
      && |o.sparks| == 3 + 10 * |o.dead| && |o.drops| <= |o.dead| && o.id == id + |o.sparks| + |o.drops|
      && WornFrom(o.enemies, es) && o.dead == (if es[j].hp == 1 then [es[j].(hp := 0)] else [])
  {
    var j := LastTouched(b, es);
    StrikeSpelled(m, dice, b, es, j, id);
    OutcomeCases(m, dice, b, es, id);
    assert es[j] in es;
    var o := ShotOutcome(m, dice, b, es, id);
    assert o == Strike(m, dice, b, es, j, id);
    if es[j].hp == 1 {
      KillFacts(es, j);
      KillScoreAppend([], es[j].(hp := 0));
      assert o.enemies == RemoveAt(es, j) && o.dead == [] + [es[j].(hp := 0)];
    } else {
      WoundFacts(es, j);
      assert o.enemies == es[j := es[j].(hp := es[j].hp - 1)] && o.dead == [] && o.drops == [];
    }
  }

  /** What a turn that strikes keeps of the pass's facts: one hit, the kill
      counted and scored, the shots ahead still missing the enemies left. */
  lemma StrikeKept(m: MathLib, dice: Dice, b: Shot, es: seq<Enemy>, id: int, es0: seq<Enemy>, bs0: seq<Shot>,
                   i: nat, rest: seq<Shot>)
    requires EnemiesAlive(es) && b.isPlayer && b.damage == 1 && 0 <= LastTouched(b, es)
    requires WornFrom(es, es0) && i < |bs0| && b == bs0[i]
    requires ShotsAhead(rest, bs0, es) && EnemyShotsKept(bs0, i + 1, rest)
    ensures var o := ShotOutcome(m, dice, b, es, id);
      && EnemiesAlive(o.enemies) && !o.keep && o.hit == 1 && TotalHp(o.enemies) == TotalHp(es) - 1
      && o.gain == KillScore(o.dead) && |o.enemies| + |o.dead| == |es| && |o.dead| <= 1
      && |o.sparks| == 3 + 10 * |o.dead| && |o.drops| <= |o.dead| && o.id == id + |o.sparks| + |o.drops|
      && WornFrom(o.enemies, es0) && (forall x :: x in o.dead ==> x.hp == 0 && Worn(x, es0))
      && ShotsAhead(rest, bs0, o.enemies) && EnemyShotsKept(bs0, i, rest)
  {
    var j := LastTouched(b, es);
    StrikeTallied(m, dice, b, es, id);
    var o := ShotOutcome(m, dice, b, es, id);
    StrikeKeeps(b, es, o.enemies, es0, j, o.dead, rest);
  }

  /** What any turn keeps of the pass's facts, given those facts before it:
      the enemies stay worn-down ones of `es0`, the shots left ahead are
      `ShotsAhead` of the enemies after it, no enemy shot is dropped, and the
      turn's hit, kill, sparks, drops and ids agree. */
  lemma OutcomeKeeps(m: MathLib, dice: Dice, b: Shot, es: seq<Enemy>, id: int, es0: seq<Enemy>, bs0: seq<Shot>,
                     i: nat, rest: seq<Shot>)
    requires EnemiesAlive(es) && (b.isPlayer ==> b.damage == 1)
    requires WornFrom(es, es0) && i < |bs0| && b == bs0[i]
    requires ShotsAhead(rest, bs0, es) && EnemyShotsKept(bs0, i + 1, rest)
    ensures var o := ShotOutcome(m, dice, b, es, id);
      && EnemiesAlive(o.enemies) && o.hit <= 1 && TotalHp(o.enemies) == TotalHp(es) - o.hit
      && o.gain == KillScore(o.dead) && |o.enemies| + |o.dead| == |es| && |o.dead| <= o.hit
      && |o.sparks| == 3 * o.hit + 10 * |o.dead| && |o.drops| <= |o.dead| && o.id == id + |o.sparks| + |o.drops|
      && (!b.isPlayer ==> o.keep) && (o.keep ==> o.hit == 0)
      && WornFrom(o.enemies, es0) && (forall x :: x in o.dead ==> x.hp == 0 && Worn(x, es0))
      && ShotsAhead(if o.keep then [b] + rest else rest, bs0, o.enemies)
      && EnemyShotsKept(bs0, i, if o.keep then [b] + rest else rest)
  {
    OutcomeCases(m, dice, b, es, id);
    if b.isPlayer && 0 <= LastTouched(b, es) {
      StrikeKept(m, dice, b, es, id, es0, bs0, i, rest);
    } else {
      if b.isPlayer {
        MissesIff(b, es);
      }
      assert b in bs0;
      assert forall x :: x in [b] + rest <==> x == b || x in rest;
    }
  }

  /** The state of the player-shot pass: the shot list, the enemies, what has
      been produced so far, and the hits and kills so far. */
  datatype PassState = PassState(bullets: seq<Shot>, enemies: seq<Enemy>, sparks: seq<Particle>,
                                 drops: seq<PowerUp>, gain: int, id: int, hits: nat, killed: seq<Enemy>)

  /** Shot `k`'s turn applied to the pass state: the shot is spliced out
      when spent, and what it produced is appended. */
  function PassStep(m: MathLib, dice: Dice, s: PassState, k: nat): (r: PassState)
    requires k < |s.bullets|
    ensures k <= |r.bullets| <= |s.bullets|
  {
    var o := ShotOutcome(m, dice, s.bullets[k], s.enemies, s.id);
    PassState(if o.keep then s.bullets else RemoveAt(s.bullets, k), o.enemies,
              s.sparks + o.sparks, s.drops + o.drops, s.gain + o.gain, o.id, s.hits + o.hit, s.killed + o.dead)
  }

  /** The reverse pass as a function: the state once the shots from index
      `i` on have had their turns, the last shot first. */
  function ShotPass(m: MathLib, bs0: seq<Shot>, es0: seq<Enemy>, id0: int, dice: Dice, i: nat): (r: PassState)
    requires i <= |bs0|
    ensures i <= |r.bullets| <= |bs0|
    decreases |bs0| - i
  {
    if i == |bs0| then PassState(bs0, es0, [], [], 0, id0, 0, [])
    else PassStep(m, dice, ShotPass(m, bs0, es0, id0, dice, i + 1), i)
  }

  /** The shots from index `i` on that stay in the list, in their order. */
  function Kept(m: MathLib, bs0: seq<Shot>, es0: seq<Enemy>, id0: int, dice: Dice, i: nat): seq<Shot>
    requires i <= |bs0|
    decreases |bs0| - i
  {
    if i == |bs0| then []
    else
      var pre := ShotPass(m, bs0, es0, id0, dice, i + 1);
      (if Spent(bs0[i], pre.enemies) then [] else [bs0[i]])
        + Kept(m, bs0, es0, id0, dice, i + 1)
  }

  /** A turn splices out at most the shot whose turn it is. */
  lemma KeptStep(m: MathLib, dice: Dice, s: PassState, p: seq<Shot>, x: Shot, rest: seq<Shot>)
    requires s.bullets == p + [x] + rest
    ensures PassStep(m, dice, s, |p|).bullets == p + (if Spent(x, s.enemies) then [] else [x]) + rest
  {
    SplitAround(p, x, rest);
  }

  /** The pass keeps the list's order: after the turns from `i` on, the shots
      before `i` are untouched and are followed by the kept ones in their
      original order. */
  lemma {:induction false} ShotPassBullets(m: MathLib, bs0: seq<Shot>, es0: seq<Enemy>, id0: int, dice: Dice, i: nat)
    requires i <= |bs0|
    ensures ShotPass(m, bs0, es0, id0, dice, i).bullets == bs0[..i] + Kept(m, bs0, es0, id0, dice, i)
    decreases |bs0| - i
  {
    if i == |bs0| {
      assert bs0[..i] == bs0;
    } else {
      ShotPassBullets(m, bs0, es0, id0, dice, i + 1);
      var pre := ShotPass(m, bs0, es0, id0, dice, i + 1);
      var rest := Kept(m, bs0, es0, id0, dice, i + 1);
      assert bs0[..i + 1] == bs0[..i] + [bs0[i]];
      KeptStep(m, dice, pre, bs0[..i], bs0[i], rest);
      var x: seq<Shot> := if Spent(bs0[i], pre.enemies) then [] else [bs0[i]];
      assert ShotPass(m, bs0, es0, id0, dice, i) == PassStep(m, dice, pre, i);
      assert Kept(m, bs0, es0, id0, dice, i) == x + rest;
      AppendAssoc(bs0[..i], x, rest);
    }
  }

  /** Every enemy left at any point of the pass still has hit points. */
  lemma {:induction false} ShotPassAlive(m: MathLib, bs0: seq<Shot>, es0: seq<Enemy>, id0: int, dice: Dice, i: nat)
    requires i <= |bs0| && ShotsWellFormed(bs0) && EnemiesAlive(es0)
    ensures EnemiesAlive(ShotPass(m, bs0, es0, id0, dice, i).enemies)
    decreases |bs0| - i
  {
    if i < |bs0| {
      ShotPassAlive(m, bs0, es0, id0, dice, i + 1);
      ShotPassBullets(m, bs0, es0, id0, dice, i + 1);
      var pre := ShotPass(m, bs0, es0, id0, dice, i + 1);
      assert pre.bullets[i] == bs0[i] by {
        assert (bs0[..i + 1] + Kept(m, bs0, es0, id0, dice, i + 1))[i] == bs0[i];
      }
      assert bs0[i] in bs0;
      ShotOutcomeFacts(m, dice, bs0[i], pre.enemies, pre.id);
    }
  }

  /** Before shot `i - 1`'s turn it is still at its place, and it and the
      enemies it faces are fit for the turn. */
  lemma ShotPassReady(m: MathLib, bs0: seq<Shot>, es0: seq<Enemy>, id0: int, dice: Dice, i: nat)
    requires 0 < i <= |bs0| && ShotsWellFormed(bs0) && EnemiesAlive(es0)
    ensures var s := ShotPass(m, bs0, es0, id0, dice, i);
      s.bullets[i - 1] == bs0[i - 1] && EnemiesAlive(s.enemies)
      && (s.bullets[i - 1].isPlayer ==> s.bullets[i - 1].damage == 1)
  {
    ShotPassAlive(m, bs0, es0, id0, dice, i);
    ShotPassBullets(m, bs0, es0, id0, dice, i);
    assert (bs0[..i] + Kept(m, bs0, es0, id0, dice, i))[i - 1] == bs0[i - 1];
    assert bs0[i - 1] in bs0;
  }

  /** The pass at shot `k`, against the enemies as they stand at its turn:
      the shot leaves the list exactly when it is a player's and touches one
      of them (no hit is missed) or is more than 50 above the top; a player
      shot that touches one takes a hit point off them; any other shot
      changes no enemy and adds no spark, drop or point (no hit is
      invented). */
  lemma ShotPassTurn(m: MathLib, bs0: seq<Shot>, es0: seq<Enemy>, id0: int, dice: Dice, k: nat)
    requires k < |bs0| && ShotsWellFormed(bs0) && EnemiesAlive(es0)
    ensures var pre := ShotPass(m, bs0, es0, id0, dice, k + 1);
      var post := ShotPass(m, bs0, es0, id0, dice, k);
      var b := bs0[k];
      && (|post.bullets| < |pre.bullets| <==> b.isPlayer && (!Misses(b, pre.enemies) || b.pos.y < -50.0))
      && (b.isPlayer && !Misses(b, pre.enemies) ==> TotalHp(post.enemies) == TotalHp(pre.enemies) - 1)
      && (!(b.isPlayer && !Misses(b, pre.enemies)) ==>
            post.enemies == pre.enemies && post.sparks == pre.sparks && post.drops == pre.drops
            && post.gain == pre.gain && post.id == pre.id)
  {
    ShotPassReady(m, bs0, es0, id0, dice, k + 1);
    var pre := ShotPass(m, bs0, es0, id0, dice, k + 1);
    ShotOutcomeFacts(m, dice, bs0[k], pre.enemies, pre.id);
  }

  /** What the reverse pass of player shots has established once the shots
      from index `i` on have had their turn: the shots before `i` are still
      untouched, those after are `ShotsAhead`, and the tallies of hits,
      kills, sparks, drops and ids agree with the enemies' lost hit points. */
  ghost predicate Passed(bs0: seq<Shot>, es0: seq<Enemy>, id0: int, i: nat, s: PassState) {
    && i <= |s.bullets| && i <= |bs0| && s.bullets[..i] == bs0[..i]
    && ShotsAhead(s.bullets[i..], bs0, s.enemies) && EnemyShotsKept(bs0, i, s.bullets[i..])
    && s.hits + |s.bullets| <= |bs0|
    && Tallied(es0, id0, s)
  }

  /** The tallies of a pass agree with the enemies' lost hit points: one hit
      point per hit, 3 sparks per hit and 10 per kill, at most one drop per
      kill, ids handed out in order, and every kill one of `es0` worn down
      to nothing. */
  ghost predicate Tallied(es0: seq<Enemy>, id0: int, s: PassState) {
    && EnemiesAlive(s.enemies) && WornFrom(s.enemies, es0)
    && TotalHp(s.enemies) == TotalHp(es0) - s.hits
    && s.gain == KillScore(s.killed) && |s.enemies| + |s.killed| == |es0| && |s.killed| <= s.hits
    && |s.sparks| == 3 * s.hits + 10 * |s.killed| && |s.drops| <= |s.killed|
    && s.id == id0 + |s.sparks| + |s.drops|
    && forall x :: x in s.killed ==> x.hp == 0 && Worn(x, es0)
  }

  /** Before the pass no shot has had its turn. */
  lemma PassedStart(bs0: seq<Shot>, es0: seq<Enemy>, id0: int)
    requires EnemiesAlive(es0)
    ensures Passed(bs0, es0, id0, |bs0|, PassState(bs0, es0, [], [], 0, id0, 0, []))
  {
    assert bs0[|bs0|..] == [];
    assert bs0[..|bs0|] == bs0;
  }

  /** One more turn keeps `Passed`. */
  lemma PassedStep(m: MathLib, dice: Dice, bs0: seq<Shot>, es0: seq<Enemy>, id0: int, i: nat, s: PassState)
    requires 0 < i && ShotsWellFormed(bs0) && Passed(bs0, es0, id0, i, s)
    ensures Passed(bs0, es0, id0, i - 1, PassStep(m, dice, s, i - 1))
  {
    var b := s.bullets[i - 1];
    assert b == bs0[i - 1] by { assert bs0[..i][i - 1] == s.bullets[..i][i - 1]; }
    assert s.bullets[..i - 1] == bs0[..i - 1] by {
      assert s.bullets[..i - 1] == s.bullets[..i][..i - 1] && bs0[..i - 1] == bs0[..i][..i - 1];
    }
    assert b in bs0;
    var rest := s.bullets[i..];
    assert s.bullets[i - 1..] == [b] + rest;
    OutcomeKeeps(m, dice, b, s.enemies, s.id, es0, bs0, i - 1, rest);
    var o := ShotOutcome(m, dice, b, s.enemies, s.id);
    KillScoreConcat(s.killed, o.dead);
    var r := PassStep(m, dice, s, i - 1);
    if !o.keep {
      assert r.bullets[i - 1..] == rest;
    }
    assert r.bullets[..i - 1] == s.bullets[..i - 1];
    assert ShotsAhead(r.bullets[i - 1..], bs0, r.enemies);
    assert EnemyShotsKept(bs0, i - 1, r.bullets[i - 1..]);
    assert r.hits + |r.bullets| <= |bs0|;
    assert Tallied(es0, id0, r);
  }

  /** The reverse pass meets `Passed` at every index. */
  lemma {:induction false} ShotPassPassed(m: MathLib, bs0: seq<Shot>, es0: seq<Enemy>, id0: int, dice: Dice, i: nat)
    requires i <= |bs0| && ShotsWellFormed(bs0) && EnemiesAlive(es0)
    ensures Passed(bs0, es0, id0, i, ShotPass(m, bs0, es0, id0, dice, i))
    decreases |bs0| - i
  {
    if i == |bs0| {
      PassedStart(bs0, es0, id0);
    } else {
      ShotPassPassed(m, bs0, es0, id0, dice, i + 1);
      PassedStep(m, dice, bs0, es0, id0, i + 1, ShotPass(m, bs0, es0, id0, dice, i + 1));
    }
  }

  /** Once every shot has had its turn, the pass has its outcome. */
  lemma PassedDone(bs0: seq<Shot>, es0: seq<Enemy>, id0: int, s: PassState)
    requires Passed(bs0, es0, id0, 0, s)
    ensures EnemiesAlive(s.enemies)
    ensures TotalHp(s.enemies) == TotalHp(es0) - s.hits
    ensures s.gain == KillScore(s.killed) && |s.enemies| + |s.killed| == |es0| && |s.killed| <= s.hits
    ensures s.hits + |s.bullets| <= |bs0|
    ensures forall x :: x in s.bullets ==> x in bs0
    ensures forall x :: x in s.bullets && x.isPlayer ==> -50.0 <= x.pos.y
    ensures forall k :: 0 <= k < |bs0| && !bs0[k].isPlayer ==> bs0[k] in s.bullets
    ensures |s.sparks| == 3 * s.hits + 10 * |s.killed| && |s.drops| <= |s.killed|
    ensures s.id == id0 + |s.sparks| + |s.drops|
    ensures WornFrom(s.enemies, es0)
    ensures forall x :: x in s.bullets && x.isPlayer ==> Misses(x, s.enemies)
    ensures forall x :: x in s.killed ==> x.hp == 0 && Worn(x, es0)
  {
    assert s.bullets[0..] == s.bullets;
    assert forall k :: 0 <= k < |bs0| && !bs0[k].isPlayer ==> bs0[k] in s.bullets;
  }

  /** One turn of the reverse pass: shot `i - 1` has its `ShotTurn` and is
      spliced out of the list when it is spent. */
  method PassTurn(m: MathLib, dice: Dice, i: nat,
                  bs: seq<Shot>, es: seq<Enemy>, sparks: seq<Particle>, drops: seq<PowerUp>, gain: int, id: int,
                  ghost hits: nat, ghost killed: seq<Enemy>)
    returns (bs': seq<Shot>, es': seq<Enemy>, sparks': seq<Particle>, drops': seq<PowerUp>, gain': int, id': int,
             ghost hits': nat, ghost killed': seq<Enemy>)
    requires 0 < i <= |bs| && EnemiesAlive(es) && (bs[i - 1].isPlayer ==> bs[i - 1].damage == 1)
    ensures PassState(bs', es', sparks', drops', gain', id', hits', killed')
      == PassStep(m, dice, PassState(bs, es, sparks, drops, gain, id, hits, killed), i - 1)
  {
    var keep, es1, sp, dr, g, id1, hit, dead := ShotTurn(m, bs[i - 1], es, id, dice);
    es', sparks', drops', gain', id' := es1, sparks + sp, drops + dr, gain + g, id1;
    hits', killed' := hits + hit, killed + dead;
    bs' := bs;
    if !keep {
      bs' := RemoveAt(bs, i - 1);
    }
  }

  /** The reverse loop of player shots against enemies. A player shot hits
      the last enemy on the list whose box it touches: the enemy loses the
      shot's damage, 3 sparks fly, and an enemy left without hit points
      bursts into 10 more, leaves the list, scores its points and, when the
      drop roll is under 0.15, leaves a powerup. A shot that hit, or flew
      more than 50 above the top, is removed. Particles and powerups come
      out in creation order, numbered from `id0`. The outcome is `ShotPass`
      at 0, which is `Passed` with every shot having had its turn;
      `PassedDone` spells that out. */
  method PlayerShotsHit(m: MathLib, bs0: seq<Shot>, es0: seq<Enemy>, id0: int, dice: Dice)
    returns (bs: seq<Shot>, es: seq<Enemy>, sparks: seq<Particle>, drops: seq<PowerUp>, gain: int, id: int,
             ghost hits: nat, ghost killed: seq<Enemy>)
    requires ShotsWellFormed(bs0) && EnemiesAlive(es0)
    ensures PassState(bs, es, sparks, drops, gain, id, hits, killed) == ShotPass(m, bs0, es0, id0, dice, 0)
    ensures Passed(bs0, es0, id0, 0, PassState(bs, es, sparks, drops, gain, id, hits, killed))
  {
    bs, es, sparks, drops, gain, id := bs0, es0, [], [], 0, id0;
    hits, killed := 0, [];
    var i: nat := |bs|;
    while i > 0
      invariant i <= |bs0|
      invariant PassState(bs, es, sparks, drops, gain, id, hits, killed) == ShotPass(m, bs0, es0, id0, dice, i)
    {
      ShotPassReady(m, bs0, es0, id0, dice, i);
      bs, es, sparks, drops, gain, id, hits, killed := PassTurn(m, dice, i, bs, es, sparks, drops, gain, id, hits, killed);
      i := i - 1;
    }
    ShotPassPassed(m, bs0, es0, id0, dice, 0);
  }

  /** A player shot hits enemy `j`: it loses the shot's 1 damage and 3 sparks
      fly at the shot; left without hit points it bursts into 10 more
      sparks, leaves the list, scores its points and, when its drop roll is
      under 0.15, leaves a powerup where it was. */
  method StrikeEnemy(m: MathLib, b: Shot, es0: seq<Enemy>, j: nat, id0: int, dice: Dice)
    returns (es: seq<Enemy>, sparks: seq<Particle>, drops: seq<PowerUp>, gain: int, id: int, ghost dead: seq<Enemy>)
    requires j < |es0| && EnemiesAlive(es0) && b.damage == 1
    ensures EnemiesAlive(es)
    ensures TotalHp(es) == TotalHp(es0) - 1
    ensures |dead| <= 1 && gain == KillScore(dead) && |es| + |dead| == |es0|
    ensures |dead| == 1 <==> es0[j].hp == 1
    ensures |sparks| == 3 + 10 * |dead| && |drops| <= |dead|
    ensures id == id0 + |sparks| + |drops|
    ensures es == (if es0[j].hp == 1 then RemoveAt(es0, j) else es0[j := es0[j].(hp := es0[j].hp - 1)])
    ensures dead == (if es0[j].hp == 1 then [es0[j].(hp := 0)] else [])
    ensures Outcome(false, es, sparks, drops, gain, id, 1, dead) == Strike(m, dice, b, es0, j, id0)
    ensures sparks == Burst(m, b.pos, 3, id0, dice) + (if es0[j].hp == 1 then Burst(m, es0[j].pos, 10, id0 + 3, dice) else [])
    ensures drops == (if es0[j].hp == 1 && dice.drop(es0[j].id) < DROP_CHANCE
                      then [MakePowerUp(id0 + 13, es0[j].pos, dice)] else [])
    ensures WornFrom(es, es0)
  {
    var e := es0[j];
    assert e in es0;
    StrikeSpelled(m, dice, b, es0, j, id0);
    sparks := Burst(m, b.pos, 3, id0, dice);
    id := id0 + 3;
    drops := [];
    var hurt := e.(hp := e.hp - b.damage);
    if hurt.hp <= 0 {
      sparks := sparks + Burst(m, e.pos, 10, id, dice);
      id := id + 10;
      KillFacts(es0, j);
      es := RemoveAt(es0, j);
      gain := KillPoints(hurt.kind);
      dead := [hurt];
      KillScoreAppend([], hurt);
      assert [] + [hurt] == [hurt];
      if dice.drop(e.id) < DROP_CHANCE {
        drops := [MakePowerUp(id, e.pos, dice)];
        id := id + 1;
      }
    } else {
      WoundFacts(es0, j);
      es := es0[j := hurt];
      gain := 0;
      dead := [];
    }
  }

  lemma KillScoreConcat(ks: seq<Enemy>, dead: seq<Enemy>)
    requires |dead| <= 1
    ensures KillScore(ks + dead) == KillScore(ks) + KillScore(dead)
  {
    if |dead| == 1 {
      KillScoreAppend(ks, dead[0]);
      KillScoreAppend([], dead[0]);
      assert [] + [dead[0]] == dead;
    } else {
      assert ks + dead == ks;
    }
  }

  /** `RamStep` field by field. */
  lemma RamStepParts(m: MathLib, dice: Dice, r: RamState, e: Enemy)
    ensures var t := RamStep(m, dice, r, e); var hit := Rams(r.player.pos, e);
      && t.player == (if hit then TakeDamage(r.player, RAM_DAMAGE) else r.player)
      && t.enemies == (if hit then RemoveId(r.enemies, e.id) else r.enemies)
      && |t.sparks| == |r.sparks| + (if hit then 5 else 0) && t.id == r.id + (if hit then 5 else 0)
  {}

  /** The ramming loop's tallies after the turns of the first `k` enemies:
      the player has taken one ram's damage per enemy rammed so far and has
      not moved, and 5 sparks, numbered in order, fly per ram. */
  lemma {:induction false} RamFoldPlayer(m: MathLib, pl0: Player, es0: seq<Enemy>, id0: int, dice: Dice, k: nat)
    requires k <= |es0| && 0 <= pl0.shield
    ensures var r := RamFold(m, pl0, es0, id0, dice, k);
      && r.player == DamageN(pl0, RAM_DAMAGE, RamCount(es0[..k], pl0.pos))
      && r.player.pos == pl0.pos && 0 <= r.player.shield
      && |r.sparks| == 5 * RamCount(es0[..k], pl0.pos) && r.id == id0 + |r.sparks|
  {
    if k == 0 {
      assert es0[..0] == [];
    } else {
      RamFoldPlayer(m, pl0, es0, id0, dice, k - 1);
      RamNext(es0, k - 1, pl0.pos);
      var s := RamFold(m, pl0, es0, id0, dice, k - 1);
      RamStepParts(m, dice, s, es0[k - 1]);
      if Rams(pl0.pos, es0[k - 1]) {
        DamageNTotal(pl0, RAM_DAMAGE, RamCount(es0[..k - 1], pl0.pos) + 1);
      }
    }
  }

  /** The enemies left after the turns of the first `k` enemies: those of
      `es0` whose id is not one rammed so far. */
  lemma {:induction false} RamFoldEnemies(m: MathLib, pl0: Player, es0: seq<Enemy>, id0: int, dice: Dice, k: nat)
    requires k <= |es0| && 0 <= pl0.shield
    ensures forall x :: x in RamFold(m, pl0, es0, id0, dice, k).enemies <==>
      x in es0 && x.id !in RammedIds(es0[..k], pl0.pos)
  {
    if k == 0 {
      assert es0[..0] == [];
    } else {
      RamFoldEnemies(m, pl0, es0, id0, dice, k - 1);
      RamFoldPlayer(m, pl0, es0, id0, dice, k - 1);
      RamNext(es0, k - 1, pl0.pos);
      var s := RamFold(m, pl0, es0, id0, dice, k - 1);
      RamStepParts(m, dice, s, es0[k - 1]);
    }
  }

  /** The ramming loop over the enemies as they were when it started (a
      `for ... of` keeps iterating the old array while the list is
      replaced): every enemy whose box is within 20 of the player costs 20
      damage and 5 sparks, and every enemy with its id leaves the list. */
  method RamEnemies(m: MathLib, pl0: Player, es0: seq<Enemy>, id0: int, dice: Dice)
    returns (pl: Player, es: seq<Enemy>, sparks: seq<Particle>, id: int)
    requires 0 <= pl0.shield
    ensures pl == DamageN(pl0, RAM_DAMAGE, RamCount(es0, pl0.pos))
    ensures forall x :: x in es <==> x in es0 && x.id !in RammedIds(es0, pl0.pos)
    ensures forall x :: x in es ==> !Rams(pl0.pos, x)
    ensures |sparks| == 5 * RamCount(es0, pl0.pos) && id == id0 + |sparks|
    ensures RamState(pl, es, sparks, id) == RamFold(m, pl0, es0, id0, dice, |es0|)
  {
    pl, es, sparks, id := pl0, es0, [], id0;
    var k := 0;
    while k < |es0|
      invariant 0 <= k <= |es0|
      invariant RamState(pl, es, sparks, id) == RamFold(m, pl0, es0, id0, dice, k)
    {
      var e := es0[k];
      assert RamFold(m, pl0, es0, id0, dice, k + 1) == RamStep(m, dice, RamState(pl, es, sparks, id), e);
      if Rams(pl.pos, e) {
        pl := TakeDamage(pl, RAM_DAMAGE);
        sparks := sparks + Burst(m, pl.pos, 5, id, dice);
        id := id + 5;
        es := RemoveId(es, e.id);
      }
      k := k + 1;
    }
    RamFoldPlayer(m, pl0, es0, id0, dice, k);
    RamFoldEnemies(m, pl0, es0, id0, dice, k);
    assert es0[..k] == es0;
    RammedIdsCover(es0, pl0.pos);
  }

  /** A shot the enemy-shot loop leaves in the list: a player shot, or an
      enemy shot that neither hit the player at `pos` nor is more than 50
      below the bottom. */
  predicate Stays(b: Shot, pos: Vec, height: real) {
    b.isPlayer || (!ShotHitsPlayer(pos, b) && b.pos.y <= height + 50.0)
  }

  /** The shots of `bs` that stay, in their order. */
  function Survivors(bs: seq<Shot>, pos: Vec, height: real): seq<Shot> {
    if bs == [] then [] else (if Stays(bs[0], pos, height) then [bs[0]] else []) + Survivors(bs[1..], pos, height)
  }

  /** The survivors are exactly the shots that stay, and each shot that hit
      is one fewer. */
  lemma {:induction false} SurvivorsFacts(bs: seq<Shot>, pos: Vec, height: real)
    ensures forall x :: x in Survivors(bs, pos, height) <==> x in bs && Stays(x, pos, height)
    ensures |Survivors(bs, pos, height)| + ShotCount(bs, pos) <= |bs|
  {
    if bs != [] {
      SurvivorsFacts(bs[1..], pos, height);
      assert forall x :: x in bs <==> x == bs[0] || x in bs[1..];
    }
  }

  /** `DodgeStep` with the player kept on the canvas: a shot that hit is
      never more than 50 below the bottom, so a turn splices out at most the
      shot whose turn it is. */
  lemma DodgeStepShape(m: MathLib, dice: Dice, height: real, s: DodgeState, i: nat)
    requires i < |s.bullets| && 0.0 <= height && s.player.pos.y <= Max(EDGE, height - EDGE)
    ensures var r := DodgeStep(m, dice, height, s, i);
      var b := s.bullets[i];
      var hit := !b.isPlayer && ShotHitsPlayer(s.player.pos, b);
      var sp := if hit then Burst(m, s.player.pos, 5, s.id, dice) else [];
      && r.sparks == s.sparks + sp && r.id == s.id + |sp| && r.hits == s.hits + (if hit then 1 else 0)
      && (b.isPlayer ==> r.player == s.player && r.bullets == s.bullets)
      && (!b.isPlayer ==>
            && r.player == (if hit then TakeDamage(s.player, b.damage) else s.player)
            && (hit || b.pos.y > height + 50.0 ==> r.bullets == RemoveAt(s.bullets, i))
            && (!hit && b.pos.y <= height + 50.0 ==> r.bullets == s.bullets))
  {
    var b := s.bullets[i];
    if !b.isPlayer && ShotHitsPlayer(s.player.pos, b) {
      HitShotOnCanvas(s.player.pos, b, height);
      assert TakeDamage(s.player, b.damage).pos == s.player.pos;
    }
  }

  /** The player never moves during the loop. */
  lemma {:induction false} DodgePassPos(m: MathLib, pl0: Player, bs0: seq<Shot>, height: real, id0: int, dice: Dice,
                                        i: nat)
    requires i <= |bs0|
    ensures DodgePass(m, pl0, bs0, height, id0, dice, i).player.pos == pl0.pos
    decreases |bs0| - i
  {
    if i < |bs0| {
      DodgePassPos(m, pl0, bs0, height, id0, dice, i + 1);
      var s := DodgePass(m, pl0, bs0, height, id0, dice, i + 1);
      assert TakeDamage(s.player, s.bullets[i].damage).pos == s.player.pos;
    }
  }

  /** A turn splices out at most the shot whose turn it is, and exactly
      when that shot does not stay. */
  lemma DodgeStepBullets(m: MathLib, dice: Dice, height: real, s: DodgeState, p: seq<Shot>, x: Shot, rest: seq<Shot>)
    requires s.bullets == p + [x] + rest && 0.0 <= height && s.player.pos.y <= Max(EDGE, height - EDGE)
    ensures DodgeStep(m, dice, height, s, |p|).bullets == p + (if Stays(x, s.player.pos, height) then [x] else []) + rest
  {
    SplitAround(p, x, rest);
    DodgeStepShape(m, dice, height, s, |p|);
  }

  /** The enemy-shot loop keeps the list's order: after the turns from `i`
      on, the shots before `i` are untouched and are followed by the
      survivors of the rest. */
  lemma {:induction false} DodgePassBullets(m: MathLib, pl0: Player, bs0: seq<Shot>, height: real, id0: int,
                                            dice: Dice, i: nat)
    requires i <= |bs0| && 0.0 <= height && pl0.pos.y <= Max(EDGE, height - EDGE)
    ensures DodgePass(m, pl0, bs0, height, id0, dice, i).bullets == bs0[..i] + Survivors(bs0[i..], pl0.pos, height)
    decreases |bs0| - i
  {
    if i == |bs0| {
      assert bs0[..i] == bs0 && bs0[i..] == [];
    } else {
      DodgePassBullets(m, pl0, bs0, height, id0, dice, i + 1);
      DodgePassPos(m, pl0, bs0, height, id0, dice, i + 1);
      var s := DodgePass(m, pl0, bs0, height, id0, dice, i + 1);
      var rest := Survivors(bs0[i + 1..], pl0.pos, height);
      assert bs0[..i + 1] == bs0[..i] + [bs0[i]];
      DodgeStepBullets(m, dice, height, s, bs0[..i], bs0[i], rest);
      var x: seq<Shot> := if Stays(bs0[i], pl0.pos, height) then [bs0[i]] else [];
      assert bs0[i..][1..] == bs0[i + 1..];
      assert Survivors(bs0[i..], pl0.pos, height) == x + rest;
      assert DodgePass(m, pl0, bs0, height, id0, dice, i) == DodgeStep(m, dice, height, s, i);
      AppendAssoc(bs0[..i], x, rest);
    }
  }

  /** The loop's tallies: the hits counted are the enemy shots of the rest
      that hit, the player has taken their damage, and 5 sparks, numbered
      in order, fly per hit. */
  lemma {:induction false} DodgePassTally(m: MathLib, pl0: Player, bs0: seq<Shot>, height: real, id0: int,
                                          dice: Dice, i: nat)
    requires i <= |bs0| && ShotsWellFormed(bs0) && 0 <= pl0.shield
    requires 0.0 <= height && pl0.pos.y <= Max(EDGE, height - EDGE)
    ensures var r := DodgePass(m, pl0, bs0, height, id0, dice, i);
      && r.hits == ShotCount(bs0[i..], pl0.pos) && r.player == DamageN(pl0, SHOT_DAMAGE, r.hits)
      && |r.sparks| == 5 * r.hits && r.id == id0 + |r.sparks|
    decreases |bs0| - i
  {
    if i == |bs0| {
      assert bs0[i..] == [];
    } else {
      DodgePassTally(m, pl0, bs0, height, id0, dice, i + 1);
      DodgePassBullets(m, pl0, bs0, height, id0, dice, i + 1);
      DodgePassPos(m, pl0, bs0, height, id0, dice, i + 1);
      var s := DodgePass(m, pl0, bs0, height, id0, dice, i + 1);
      assert s.bullets[i] == bs0[i] by {
        assert (bs0[..i + 1] + Survivors(bs0[i + 1..], pl0.pos, height))[i] == bs0[i];
      }
      assert bs0[i] in bs0;
      DodgeStepShape(m, dice, height, s, i);
      assert bs0[i..][1..] == bs0[i + 1..];
      if !bs0[i].isPlayer && ShotHitsPlayer(pl0.pos, bs0[i]) {
        DamageNTotal(pl0, SHOT_DAMAGE, s.hits + 1);
      }
    }
  }

  /** One turn of the reverse loop: shot `i - 1`, when it is an enemy's,
      has its `ShotStep`. */
  method DodgeTurn(m: MathLib, dice: Dice, height: real, i: nat,
                   pl: Player, bs: seq<Shot>, sparks: seq<Particle>, id: int, ghost hits: nat)
    returns (pl': Player, bs': seq<Shot>, sparks': seq<Particle>, id': int, ghost hits': nat)
    requires 0 < i <= |bs| && 0.0 <= height && pl.pos.y <= Max(EDGE, height - EDGE)
    ensures DodgeState(pl', bs', sparks', id', hits') == DodgeStep(m, dice, height, DodgeState(pl, bs, sparks, id, hits), i - 1)
  {
    pl', bs', sparks', id', hits' := pl, bs, sparks, id, hits;
    if !bs[i - 1].isPlayer {
      var pl1, bs1, sp, id1, hit := ShotStep(m, pl, bs, i - 1, height, id, dice);
      assert TakeDamage(pl, bs[i - 1].damage).pos == pl.pos;
      pl', bs', sparks', id' := pl1, bs1, sparks + sp, id1;
      hits' := hits + (if hit then 1 else 0);
    }
  }

  /** The reverse loop of enemy shots against the player, as written: a shot
      within 15 of the player on both axes deals its damage, makes 5 sparks
      and is spliced out; then, in a separate test, a shot more than 50
      below the bottom is spliced out at the same index. With the player
      kept on the canvas (its `y` at most `max(20, height - 20)`) a shot that
      hit is never that low, so the second splice never removes a
      neighbour. */
  method ShotsHitPlayer(m: MathLib, pl0: Player, bs0: seq<Shot>, height: real, id0: int, dice: Dice)
    returns (pl: Player, bs: seq<Shot>, sparks: seq<Particle>, id: int, ghost hits: nat)
    requires ShotsWellFormed(bs0) && 0 <= pl0.shield
    requires 0.0 <= height && pl0.pos.y <= Max(EDGE, height - EDGE)
    ensures hits == ShotCount(bs0, pl0.pos)
    ensures pl == DamageN(pl0, SHOT_DAMAGE, hits)
    ensures hits + |bs| <= |bs0|
    ensures forall x :: x in bs ==> x in bs0
    ensures forall x :: x in bs && !x.isPlayer ==> !ShotHitsPlayer(pl0.pos, x) && x.pos.y <= height + 50.0
    ensures forall k :: 0 <= k < |bs0| && bs0[k].isPlayer ==> bs0[k] in bs
    ensures forall k :: (0 <= k < |bs0| && !bs0[k].isPlayer && !ShotHitsPlayer(pl0.pos, bs0[k])
                         && bs0[k].pos.y <= height + 50.0) ==> bs0[k] in bs
    ensures |sparks| == 5 * hits && id == id0 + |sparks|
    ensures bs == Survivors(bs0, pl0.pos, height)
    ensures DodgeState(pl, bs, sparks, id, hits) == DodgePass(m, pl0, bs0, height, id0, dice, 0)
  {
    pl, bs, sparks, id := pl0, bs0, [], id0;
    hits := 0;
    var i: nat := |bs|;
    while i > 0
      invariant i <= |bs0|
      invariant DodgeState(pl, bs, sparks, id, hits) == DodgePass(m, pl0, bs0, height, id0, dice, i)
    {
      DodgePassPos(m, pl0, bs0, height, id0, dice, i);
      pl, bs, sparks, id, hits := DodgeTurn(m, dice, height, i, pl, bs, sparks, id, hits);
      i := i - 1;
    }
    DodgePassTally(m, pl0, bs0, height, id0, dice, 0);
    DodgePassBullets(m, pl0, bs0, height, id0, dice, 0);
    SurvivorsFacts(bs0, pl0.pos, height);
    assert bs0[..0] == [] && bs0[0..] == bs0;
  }

  /** One enemy shot of the loop, at index `i`. */
  method ShotStep(m: MathLib, pl0: Player, bs0: seq<Shot>, i: nat, height: real, id0: int, dice: Dice)
    returns (pl: Player, bs: seq<Shot>, sparks: seq<Particle>, id: int, hit: bool)
    requires i < |bs0| && !bs0[i].isPlayer
    requires 0.0 <= height && pl0.pos.y <= Max(EDGE, height - EDGE)
    ensures hit == ShotHitsPlayer(pl0.pos, bs0[i])
    ensures pl == if hit then TakeDamage(pl0, bs0[i].damage) else pl0
    ensures hit || bs0[i].pos.y > height + 50.0 ==> bs == RemoveAt(bs0, i)
    ensures !hit && bs0[i].pos.y <= height + 50.0 ==> bs == bs0
    ensures |sparks| == (if hit then 5 else 0) && id == id0 + |sparks|
    ensures sparks == (if hit then Burst(m, pl0.pos, 5, id0, dice) else [])
    ensures var bs1 := if hit then RemoveAt(bs0, i) else bs0;
      bs == (if bs0[i].pos.y > height + 50.0 && i < |bs1| then RemoveAt(bs1, i) else bs1)
  {
    var b := bs0[i];
    pl, bs, sparks, id := pl0, bs0, [], id0;
    hit := ShotHitsPlayer(pl.pos, b);
    if hit {
      HitShotOnCanvas(pl.pos, b, height);
      pl := TakeDamage(pl, b.damage);
      sparks := Burst(m, pl.pos, 5, id, dice);
      id := id + 5;
      bs := RemoveAt(bs, i);
    }
    if b.pos.y > height + 50.0 && i < |bs| {
      bs := RemoveAt(bs, i);
    }
  }

  /** The particle `forEach` (move, one tick of life off) and the filter
      that drops the spent ones. */
  method AgeParticles(ps0: seq<Particle>) returns (ps: seq<Particle>)
    ensures ps == Alive(Map(StepParticle, ps0))
    ensures forall p :: p in ps ==> p.life > 0.0
  {
    ps := ps0;
    var k := 0;
    while k < |ps|
      invariant 0 <= k <= |ps| == |ps0|
      invariant forall q :: 0 <= q < k ==> ps[q] == StepParticle(ps0[q])
      invariant forall q :: k <= q < |ps| ==> ps[q] == ps0[q]
    {
      ps := ps[k := StepParticle(ps[k])];
      k := k + 1;
    }
    assert ps == Map(StepParticle, ps0);
    ps := Alive(ps);
  }

  /** From `a` to `b` within a tick: score and levels never go down; the
      player's position, the game-over flag, the scroll and the wave timer
      stay. */
  predicate Progress(a: RaidenState, b: RaidenState) {
    && a.score <= b.score
    && a.player.weaponLevel <= b.player.weaponLevel && a.player.speedLevel <= b.player.speedLevel
    && a.player.pos == b.player.pos && a.gameOver == b.gameOver
    && a.scroll == b.scroll && a.waveTimer == b.waveTimer
  }

  /** Player shots do 1 damage, enemy shots 10. */
  predicate ShotsWellFormed(bs: seq<Shot>) {
    forall b :: b in bs ==> b.damage == (if b.isPlayer then 1 else SHOT_DAMAGE)
  }

  /** Every enemy on the list has hit points left. */
  predicate EnemiesAlive(es: seq<Enemy>) {
    forall e :: e in es ==> 0 < e.hp <= e.maxHp
  }

  function FallPowerUp(p: PowerUp): PowerUp {
    p.(pos := Vec(p.pos.x, p.pos.y + p.vy))
  }

  function MoveShot(b: Shot): Shot {
    b.(pos := Add(b.pos, b.vel))
  }

  /** The state `reset` builds, with the player at `pos`. */
  function Fresh(pos: Vec): RaidenState {
    RaidenState(Player(pos, MAX_HP, MAX_HP, 0, 1, 1, 0), [], [], [], [], 0, false, 0, 0)
  }

  /** What the three collision passes make of `a`, with `hits` player-shot
      hits killing `killed` and leaving the enemies `survivors` and the shots
      `left`: the survivors are enemies of `a` worn down, the kills are
      enemies of `a` with no hit points; the player takes the ram and
      enemy-shot damage (`Struck`); the rammed enemies leave; no player shot
      left touches an enemy, no enemy shot left touches the player or is
      more than 50 below the bottom, and every enemy shot that neither hit
      nor fell that low is still there. */
  ghost predicate Clashed(a: RaidenState, b: RaidenState, height: real, hits: nat, killed: seq<Enemy>,
                          survivors: seq<Enemy>, left: seq<Shot>)
  {
    var pos := a.player.pos;
    && TotalHp(survivors) == TotalHp(a.enemies) - hits
    && |survivors| + |killed| == |a.enemies| && |killed| <= hits
    && WornFrom(survivors, a.enemies)
    && (forall x :: x in killed ==> x.hp == 0 && Worn(x, a.enemies))
    && b.score == a.score + KillScore(killed)
    && b.player == Struck(a.player, survivors, left)
    && (forall x :: x in b.enemies <==> x in survivors && x.id !in RammedIds(survivors, pos))
    && (forall x :: x in left ==> x in a.bullets)
    && (forall x :: x in b.bullets ==> x in left)
    && (forall x :: x in b.bullets && x.isPlayer ==> -50.0 <= x.pos.y && Misses(x, b.enemies))
    && (forall x :: x in b.bullets && !x.isPlayer ==> !ShotHitsPlayer(pos, x) && x.pos.y <= height + 50.0)
    && (forall k :: (0 <= k < |a.bullets| && !a.bullets[k].isPlayer && !ShotHitsPlayer(pos, a.bullets[k])
                     && a.bullets[k].pos.y <= height + 50.0) ==> a.bullets[k] in b.bullets)
    && a.powerups <= b.powerups
  }

  /** The three passes in turn, from `a` through `s1` (player shots) and
      `s2` (ramming) to `b` (enemy shots), add up to `Clashed`. */
  lemma ClashedOf(a: RaidenState, s1: RaidenState, s2: RaidenState, b: RaidenState, height: real,
                  hits: nat, killed: seq<Enemy>, rams: nat, struck: nat)
    requires TotalHp(s1.enemies) == TotalHp(a.enemies) - hits
    requires s1.score == a.score + KillScore(killed) && |killed| <= hits
    requires |s1.enemies| + |killed| == |a.enemies|
    requires forall x :: x in s1.bullets ==> x in a.bullets
    requires forall x :: x in s1.bullets && x.isPlayer ==> -50.0 <= x.pos.y && Misses(x, s1.enemies)
    requires forall k :: 0 <= k < |a.bullets| && !a.bullets[k].isPlayer ==> a.bullets[k] in s1.bullets
    requires WornFrom(s1.enemies, a.enemies)
    requires forall x :: x in killed ==> x.hp == 0 && Worn(x, a.enemies)
    requires a.powerups <= s1.powerups && s1.player == a.player
    requires rams == RamCount(s1.enemies, s1.player.pos)
    requires s2.player == DamageN(s1.player, RAM_DAMAGE, rams)
    requires s2.player == s1.player.(hp := s2.player.hp, shield := s2.player.shield)
    requires forall x :: x in s2.enemies <==> x in s1.enemies && x.id !in RammedIds(s1.enemies, s1.player.pos)
    requires s2.bullets == s1.bullets && s2.score == s1.score && s2.powerups == s1.powerups
    requires struck == ShotCount(s2.bullets, s2.player.pos)
    requires b.player == DamageN(s2.player, SHOT_DAMAGE, struck)
    requires b.player == s2.player.(hp := b.player.hp, shield := b.player.shield)
    requires forall x :: x in b.bullets ==> x in s2.bullets
    requires forall x :: x in b.bullets && !x.isPlayer ==> !ShotHitsPlayer(b.player.pos, x) && x.pos.y <= height + 50.0
    requires forall k :: (0 <= k < |s2.bullets| && !s2.bullets[k].isPlayer
                          && !ShotHitsPlayer(s2.player.pos, s2.bullets[k])
                          && s2.bullets[k].pos.y <= height + 50.0) ==> s2.bullets[k] in b.bullets
    requires b.enemies == s2.enemies && b.score == s2.score && b.powerups == s2.powerups
    ensures Clashed(a, b, height, hits, killed, s1.enemies, s1.bullets)
  {
    forall x | x in b.bullets && x.isPlayer
      ensures Misses(x, b.enemies)
    {
      assert Misses(x, s1.enemies);
    }
    forall k | 0 <= k < |a.bullets| && !a.bullets[k].isPlayer && !ShotHitsPlayer(a.player.pos, a.bullets[k])
               && a.bullets[k].pos.y <= height + 50.0
      ensures a.bullets[k] in b.bullets
    {
      var j :| 0 <= j < |s2.bullets| && s2.bullets[j] == a.bullets[k];
    }
  }

  // ---------------------------------------------------------------- the tick as functions

  /** The state of the ramming loop: the player, the enemy list, the sparks
      made so far and the id counter. */
  datatype RamState = RamState(player: Player, enemies: seq<Enemy>, sparks: seq<Particle>, id: int)

  /** One enemy's turn of the ramming loop: when the player rams it, 20
      damage, 5 sparks at the player, and every enemy with its id leaves. */
  function RamStep(m: MathLib, dice: Dice, r: RamState, e: Enemy): RamState {
    if Rams(r.player.pos, e) then
      var pl := TakeDamage(r.player, RAM_DAMAGE);
      RamState(pl, RemoveId(r.enemies, e.id), r.sparks + Burst(m, pl.pos, 5, r.id, dice), r.id + 5)
    else r
  }

  /** The ramming loop as a function: the state after the turns of the
      first `k` enemies of `es0`, the list as it was when the loop began. */
  function RamFold(m: MathLib, pl0: Player, es0: seq<Enemy>, id0: int, dice: Dice, k: nat): RamState
    requires k <= |es0|
  {
    if k == 0 then RamState(pl0, es0, [], id0)
    else RamStep(m, dice, RamFold(m, pl0, es0, id0, dice, k - 1), es0[k - 1])
  }

  /** The state of the enemy-shot loop: the player, the shot list, the
      sparks made so far, the id counter and the hits so far. */
  datatype DodgeState = DodgeState(player: Player, bullets: seq<Shot>, sparks: seq<Particle>, id: int, hits: nat)

  /** Shot `i`'s turn of the enemy-shot loop, as written: an enemy shot
      within 15 of the player deals its damage, makes 5 sparks and is
      spliced out; then, in a separate test, one more than 50 below the
      bottom is spliced out at the same index, if the list still reaches
      it. A player shot is passed over. */
  function DodgeStep(m: MathLib, dice: Dice, height: real, s: DodgeState, i: nat): (r: DodgeState)
    requires i < |s.bullets|
    ensures i <= |r.bullets| <= |s.bullets|
  {
    var b := s.bullets[i];
    if b.isPlayer then s
    else
      var hit := ShotHitsPlayer(s.player.pos, b);
      var pl := if hit then TakeDamage(s.player, b.damage) else s.player;
      var sp := if hit then Burst(m, pl.pos, 5, s.id, dice) else [];
      var bs1 := if hit then RemoveAt(s.bullets, i) else s.bullets;
      var bs2 := if b.pos.y > height + 50.0 && i < |bs1| then RemoveAt(bs1, i) else bs1;
      DodgeState(pl, bs2, s.sparks + sp, s.id + |sp|, s.hits + (if hit then 1 else 0))
  }

  /** The enemy-shot loop as a function: the state once the shots from
      index `i` on have had their turns, the last shot first. */
  function DodgePass(m: MathLib, pl0: Player, bs0: seq<Shot>, height: real, id0: int, dice: Dice, i: nat)
    : (r: DodgeState)
    requires i <= |bs0|
    ensures i <= |r.bullets| <= |bs0|
    decreases |bs0| - i
  {
    if i == |bs0| then DodgeState(pl0, bs0, [], id0, 0)
    else DodgeStep(m, dice, height, DodgePass(m, pl0, bs0, height, id0, dice, i + 1), i)
  }

  /** The engine's state together with its id counter. */
  datatype Snapshot = Snapshot(state: RaidenState, id: int)

  /** The start of a live tick: the backdrop scrolls by 3; the player moves;
      the cooldown counts down and, when asked to and run out, the volley of
      the weapon level is fired and the cooldown rearmed at 8; the wave
      timer runs, and each time it passes 60 an enemy is spawned and the
      timer goes back to 0. */
  function ReadyPhase(s: Snapshot, inputX: real, inputY: real, width: real, height: real, shouldShoot: bool,
                      dice: Dice): Snapshot
  {
    var st := s.state;
    var p := MovedPlayer(st.player, inputX, inputY, width, height);
    var fired := shouldShoot && p.cooldown - 1 <= 0;
    var v := if fired then Volley(p.pos, p.weaponLevel, s.id) else [];
    var id1 := s.id + |v|;
    var spawned := st.waveTimer + 1 > SPAWN_INTERVAL;
    Snapshot(st.(scroll := st.scroll + 3,
                 player := p.(cooldown := if fired then VOLLEY_COOLDOWN else p.cooldown - 1),
                 bullets := st.bullets + v,
                 waveTimer := if spawned then 0 else st.waveTimer + 1,
                 enemies := st.enemies + (if spawned then [MakeEnemy(id1, width, dice.enemy(id1))] else [])),
             id1 + (if spawned then 1 else 0))
  }

  /** The powerups fall, then the reverse pickup loop. */
  function PickupPhase(m: MathLib, s: Snapshot, height: real): Snapshot {
    var sw := Sweep(m, s.state.player, Map(FallPowerUp, s.state.powerups), height);
    Snapshot(s.state.(player := sw.0, powerups := sw.1), s.id)
  }

  /** Every enemy after its tick. */
  function AdvancedAll(es: seq<Enemy>, width: real, height: real): (r: seq<Enemy>)
    ensures |r| == |es| && forall k :: 0 <= k < |r| ==> r[k] == Advanced(es[k], width, height)
  {
    if es == [] then [] else AdvancedAll(es[..|es| - 1], width, height) + [Advanced(es[|es| - 1], width, height)]
  }

  /** The enemies move and the heavies fire; then every shot moves. */
  function ArmPhase(m: MathLib, s: Snapshot, width: real, height: real): Snapshot {
    var st := s.state;
    var shots := EnemyShots(m, st.enemies, st.player.pos, width, height, s.id);
    Snapshot(st.(enemies := AdvancedAll(st.enemies, width, height), bullets := Map(MoveShot, st.bullets + shots)),
             s.id + |shots|)
  }

  /** The player-shot pass, written back. */
  function HitPhase(m: MathLib, s: Snapshot, dice: Dice): Snapshot {
    var st := s.state;
    var r := ShotPass(m, st.bullets, st.enemies, s.id, dice, 0);
    Snapshot(st.(bullets := r.bullets, enemies := r.enemies, particles := st.particles + r.sparks,
                 powerups := st.powerups + r.drops, score := st.score + r.gain), r.id)
  }

  /** The ramming loop, written back. */
  function RamPhase(m: MathLib, s: Snapshot, dice: Dice): Snapshot {
    var st := s.state;
    var r := RamFold(m, st.player, st.enemies, s.id, dice, |st.enemies|);
    Snapshot(st.(player := r.player, enemies := r.enemies, particles := st.particles + r.sparks), r.id)
  }

  /** The enemy-shot loop, written back. */
  function DodgePhase(m: MathLib, s: Snapshot, height: real, dice: Dice): Snapshot {
    var st := s.state;
    var r := DodgePass(m, st.player, st.bullets, height, s.id, dice, 0);
    Snapshot(st.(player := r.player, bullets := r.bullets, particles := st.particles + r.sparks), r.id)
  }

  /** The three collision passes in the source's order. */
  function CollidePhase(m: MathLib, s: Snapshot, height: real, dice: Dice): Snapshot {
    DodgePhase(m, RamPhase(m, HitPhase(m, s, dice), dice), height, dice)
  }

  /** The end of a live tick: a hull at or below 0 is set to 0 and ends the
      game; the particles move and age and the spent ones go; the enemies
      more than 100 below the bottom go. */
  function SettlePhase(s: Snapshot, height: real): Snapshot {
    var st := s.state;
    var st1 := if st.player.hp <= 0 then st.(player := st.player.(hp := 0), gameOver := true) else st;
    Snapshot(st1.(particles := Alive(Map(StepParticle, st1.particles)), enemies := OnScreen(st1.enemies, height)),
             s.id)
  }

  /** `updatePhysics` as a function: nothing changes once the game is over;
      otherwise the phases in the source's order. */
  function PhysicsNext(m: MathLib, s: Snapshot, width: real, height: real, inputX: real, inputY: real,
                       shouldShoot: bool, dice: Dice): Snapshot
  {
    if s.state.gameOver then s
    else
      var armed := ArmPhase(m, PickupPhase(m, ReadyPhase(s, inputX, inputY, width, height, shouldShoot, dice), height),
                            width, height);
      SettlePhase(CollidePhase(m, armed, height, dice), height)
  }

  // ---------------------------------------------------------------- engine

  class RaidenEngine {
    var state: RaidenState
    var idCounter: int

    /** What holds between the steps of a tick: hull at most 100, shield in
        [0, 100], both levels in [1, 3], well-formed shots, live enemies. */
    ghost predicate Stable()
      reads this
    {
      var p := state.player;
      0 <= idCounter && p.maxHp == MAX_HP && p.hp <= p.maxHp && 0 <= p.shield <= MAX_SHIELD
      && 1 <= p.weaponLevel <= MAX_LEVEL && 1 <= p.speedLevel <= MAX_LEVEL
      && ShotsWellFormed(state.bullets) && EnemiesAlive(state.enemies)
    }

    /** What holds between ticks: besides `Stable`, the hull is never
        negative, the game is over exactly when it is 0, the wave timer is
        in [0, 60] and every particle still has life. */
    ghost predicate Valid()
      reads this
    {
      Stable() && 0 <= state.player.hp && (state.gameOver <==> state.player.hp == 0)
      && 0 <= state.waveTimer <= SPAWN_INTERVAL
      && forall p :: p in state.particles ==> p.life > 0.0
    }

    constructor ()
      ensures state == Fresh(Vec(0.0, 0.0)) && idCounter == 0 && Valid()
    {
      state := Fresh(Vec(0.0, 0.0));
      idCounter := 0;
    }

    /** `reset(width, height)`: a fresh state with the player at the bottom
        centre; the id counter keeps counting. */
    method Reset(width: real, height: real)
      requires 0 <= idCounter
      modifies this
      ensures state == Fresh(Vec(width / 2.0, height - 100.0)) && idCounter == old(idCounter)
      ensures Valid()
    {
      state := Fresh(Vec(width / 2.0, height - 100.0));
    }

    /** `spawnParticle(x, y, color, count)`. */
    method SpawnParticles(m: MathLib, pos: Vec, count: nat, dice: Dice)
      modifies this
      ensures state == old(state).(particles := old(state).particles + Burst(m, pos, count, old(idCounter), dice))
      ensures idCounter == old(idCounter) + count
    {
      var s0 := state;
      var ps := state.particles;
      var id := idCounter;
      for i := 0 to count
        invariant id == old(idCounter) + i
        invariant ps == old(state).particles + Burst(m, pos, i, old(idCounter), dice)
      {
        var p := MakeParticle(m, id, pos, dice.particle(id));
        Seqs.AppendAssoc(old(state).particles, Burst(m, pos, i, old(idCounter), dice), [p]);
        ps := ps + [p];
        id := id + 1;
      }
      state := s0.(particles := ps);
      idCounter := id;
    }

    /** `spawnPowerUp(x, y)`. */
    method SpawnPowerUp(pos: Vec, dice: Dice)
      modifies this
      ensures state == old(state).(powerups := old(state).powerups + [MakePowerUp(old(idCounter), pos, dice)])
      ensures idCounter == old(idCounter) + 1
    {
      state := state.(powerups := state.powerups + [MakePowerUp(idCounter, pos, dice)]);
      idCounter := idCounter + 1;
    }

    /** Player movement at the current speed, clamped to the canvas. */
    method MovePlayer(inputX: real, inputY: real, width: real, height: real)
      requires Stable()
      modifies this
      ensures Stable()
      ensures state == old(state).(player := MovedPlayer(old(state).player, inputX, inputY, width, height))
      ensures idCounter == old(idCounter)
    {
      state := state.(player := MovedPlayer(state.player, inputX, inputY, width, height));
    }

    /** Count the cooldown down; fire the volley of the weapon level when
        asked to and the cooldown has run out, and rearm it at 8. */
    method Shoot(shouldShoot: bool) returns (fired: bool)
      requires Stable()
      modifies this
      ensures Stable()
      ensures fired == (shouldShoot && old(state).player.cooldown - 1 <= 0)
      ensures var p := old(state).player;
        state == old(state).(
          player := p.(cooldown := if fired then VOLLEY_COOLDOWN else p.cooldown - 1),
          bullets := old(state).bullets + (if fired then Volley(p.pos, p.weaponLevel, old(idCounter)) else []))
      ensures idCounter == old(idCounter) + (if fired then |Volley(old(state).player.pos, old(state).player.weaponLevel, old(idCounter))| else 0)
    {
      var p := state.player.(cooldown := state.player.cooldown - 1);
      fired := shouldShoot && p.cooldown <= 0;
      if fired {
        var v := Volley(p.pos, p.weaponLevel, idCounter);
        state := state.(player := p.(cooldown := VOLLEY_COOLDOWN), bullets := state.bullets + v);
        idCounter := idCounter + |v|;
      } else {
        state := state.(player := p);
      }
    }

    /** The wave timer: one enemy each time it passes 60, then back to 0. */
    method AdvanceWave(width: real, dice: Dice) returns (spawned: bool)
      requires Stable() && 0 <= state.waveTimer <= SPAWN_INTERVAL
      modifies this
      ensures Stable() && 0 <= state.waveTimer <= SPAWN_INTERVAL
      ensures spawned == (old(state).waveTimer + 1 > SPAWN_INTERVAL)
      ensures state == old(state).(
        waveTimer := if spawned then 0 else old(state).waveTimer + 1,
        enemies := old(state).enemies + (if spawned then [MakeEnemy(old(idCounter), width, dice.enemy(old(idCounter)))] else []))
      ensures idCounter == old(idCounter) + (if spawned then 1 else 0)
    {
      var t := state.waveTimer + 1;
      spawned := t > SPAWN_INTERVAL;
      if spawned {
        var e := MakeEnemy(idCounter, width, dice.enemy(idCounter));
        state := state.(enemies := state.enemies + [e], waveTimer := 0);
        idCounter := idCounter + 1;
      } else {
        state := state.(waveTimer := t);
      }
    }

    /** Every powerup falls by its own speed. */
    method MovePowerUps()
      requires Stable()
      modifies this
      ensures Stable()
      ensures |state.powerups| == |old(state).powerups|
      ensures state.powerups == Map(FallPowerUp, old(state).powerups)
      ensures state == old(state).(powerups := state.powerups) && idCounter == old(idCounter)
    {
      var k := 0;
      while k < |state.powerups|
        invariant 0 <= k <= |state.powerups| == |old(state).powerups|
        invariant forall q :: 0 <= q < k ==> state.powerups[q] == FallPowerUp(old(state).powerups[q])
        invariant forall q :: k <= q < |state.powerups| ==> state.powerups[q] == old(state).powerups[q]
        invariant state == old(state).(powerups := state.powerups) && idCounter == old(idCounter)
      {
        state := state.(powerups := state.powerups[k := FallPowerUp(state.powerups[k])]);
        k := k + 1;
      }
      assert state.powerups == Map(FallPowerUp, old(state).powerups);
    }

    /** The pickup loop (`PickUp`), written back. */
    method CollectPowerUps(m: MathLib, height: real)
      requires Stable()
      modifies this
      ensures Stable()
      ensures (state.player, state.powerups) == Sweep(m, old(state).player, old(state).powerups, height)
      ensures state == old(state).(player := state.player, powerups := state.powerups) && idCounter == old(idCounter)
      ensures state.player.pos == old(state).player.pos
      ensures old(state).player.weaponLevel <= state.player.weaponLevel
      ensures old(state).player.speedLevel <= state.player.speedLevel
    {
      var pl, ps := PickUp(m, state.player, state.powerups, height);
      SweepPlayer(m, state.player, state.powerups, height);
      state := state.(player := pl, powerups := ps);
    }

    /** The enemy `forEach` (`AdvanceEnemies`), written back. */
    method UpdateEnemies(m: MathLib, width: real, height: real)
      requires Stable()
      modifies this
      ensures Stable()
      ensures |state.enemies| == |old(state).enemies|
      ensures forall k :: 0 <= k < |state.enemies| ==> state.enemies[k] == Advanced(old(state).enemies[k], width, height)
      ensures state.enemies == AdvancedAll(old(state).enemies, width, height)
      ensures state == old(state).(
        enemies := state.enemies,
        bullets := old(state).bullets + EnemyShots(m, old(state).enemies, old(state).player.pos, width, height, old(idCounter)))
      ensures idCounter == old(idCounter) + |EnemyShots(m, old(state).enemies, old(state).player.pos, width, height, old(idCounter))|
    {
      var es, shots := AdvanceEnemies(m, state.enemies, state.player.pos, width, height, idCounter);
      AdvancedAlive(state.enemies, es, width, height);
      forall b | b in shots
        ensures !b.isPlayer && b.damage == SHOT_DAMAGE
      {
        var q :| 0 <= q < |shots| && shots[q] == b;
      }
      assert es == AdvancedAll(state.enemies, width, height);
      state := state.(enemies := es, bullets := state.bullets + shots);
      idCounter := idCounter + |shots|;
    }

    /** Every shot moves by its velocity. */
    method MoveBullets()
      requires Stable()
      modifies this
      ensures Stable()
      ensures |state.bullets| == |old(state).bullets|
      ensures state.bullets == Map(MoveShot, old(state).bullets)
      ensures state == old(state).(bullets := state.bullets) && idCounter == old(idCounter)
    {
      var k := 0;
      while k < |state.bullets|
        invariant 0 <= k <= |state.bullets| == |old(state).bullets|
        invariant forall q :: 0 <= q < k ==> state.bullets[q] == MoveShot(old(state).bullets[q])
        invariant forall q :: k <= q < |state.bullets| ==> state.bullets[q] == old(state).bullets[q]
        invariant state == old(state).(bullets := state.bullets) && idCounter == old(idCounter)
        invariant Stable()
      {
        var b := state.bullets[k];
        UpdateMembers(state.bullets, k, MoveShot(b));
        state := state.(bullets := state.bullets[k := MoveShot(b)]);
        k := k + 1;
      }
      assert state.bullets == Map(MoveShot, old(state).bullets);
    }
  
    /** Player shots against enemies (`PlayerShotsHit`), written back: the
        sparks join the particles, the drops the powerups, the points the
        score. */
    method ResolvePlayerShots(m: MathLib, dice: Dice) returns (ghost hits: nat, ghost killed: seq<Enemy>)
      requires Stable()
      modifies this
      ensures Stable()
      ensures TotalHp(state.enemies) == TotalHp(old(state).enemies) - hits
      ensures state.score == old(state).score + KillScore(killed) && |killed| <= hits
      ensures |state.enemies| + |killed| == |old(state).enemies|
      ensures forall x :: x in state.bullets ==> x in old(state).bullets
      ensures forall x :: x in state.bullets && x.isPlayer ==> -50.0 <= x.pos.y && Misses(x, state.enemies)
      ensures forall k :: 0 <= k < |old(state).bullets| && !old(state).bullets[k].isPlayer ==>
        old(state).bullets[k] in state.bullets
      ensures WornFrom(state.enemies, old(state).enemies)
      ensures forall x :: x in killed ==> x.hp == 0 && Worn(x, old(state).enemies)
      ensures old(state).powerups <= state.powerups
      ensures state == old(state).(
        bullets := state.bullets, enemies := state.enemies, particles := state.particles,
        powerups := state.powerups, score := state.score)
      ensures old(idCounter) <= idCounter
      ensures var r := ShotPass(m, old(state).bullets, old(state).enemies, old(idCounter), dice, 0);
        && state == old(state).(bullets := r.bullets, enemies := r.enemies, particles := old(state).particles + r.sparks,
                                powerups := old(state).powerups + r.drops, score := old(state).score + r.gain)
        && idCounter == r.id && hits == r.hits && killed == r.killed
    ensures Snapshot(state, idCounter) == HitPhase(m, Snapshot(old(state), old(idCounter)), dice)
    {
      var bs, es, sparks, drops, gain, id, h, k := PlayerShotsHit(m, state.bullets, state.enemies, idCounter, dice);
      PassedDone(state.bullets, state.enemies, idCounter, PassState(bs, es, sparks, drops, gain, id, h, k));
      state := state.(bullets := bs, enemies := es, particles := state.particles + sparks,
                      powerups := state.powerups + drops, score := state.score + gain);
      idCounter := id;
      hits, killed := h, k;
    }

    /** Ramming (`RamEnemies`), written back. */
    method RamPlayer(m: MathLib, dice: Dice) returns (ghost rams: nat)
      requires Stable()
      modifies this
      ensures Stable()
      ensures rams == RamCount(old(state).enemies, old(state).player.pos)
      ensures state.player == DamageN(old(state).player, RAM_DAMAGE, rams)
      ensures state.player == old(state).player.(hp := state.player.hp, shield := state.player.shield)
      ensures forall x :: x in state.enemies <==> x in old(state).enemies && x.id !in RammedIds(old(state).enemies, old(state).player.pos)
      ensures state == old(state).(player := state.player, enemies := state.enemies, particles := state.particles)
      ensures old(idCounter) <= idCounter
      ensures Snapshot(state, idCounter) == RamPhase(m, Snapshot(old(state), old(idCounter)), dice)
    {
      var pl, es, sparks, id := RamEnemies(m, state.player, state.enemies, idCounter, dice);
      rams := RamCount(state.enemies, state.player.pos);
      DamageNTotal(state.player, RAM_DAMAGE, rams);
      state := state.(player := pl, enemies := es, particles := state.particles + sparks);
      idCounter := id;
    }

    /** Enemy shots against the player (`ShotsHitPlayer`), written back. */
    method EnemyFire(m: MathLib, height: real, dice: Dice) returns (ghost hits: nat)
      requires Stable() && 0.0 <= height && state.player.pos.y <= Max(EDGE, height - EDGE)
      modifies this
      ensures Stable()
      ensures hits == ShotCount(old(state).bullets, old(state).player.pos)
      ensures state.player == DamageN(old(state).player, SHOT_DAMAGE, hits)
      ensures state.player == old(state).player.(hp := state.player.hp, shield := state.player.shield)
      ensures forall x :: x in state.bullets ==> x in old(state).bullets
      ensures forall x :: x in state.bullets && !x.isPlayer ==>
        !ShotHitsPlayer(state.player.pos, x) && x.pos.y <= height + 50.0
      ensures forall k :: 0 <= k < |old(state).bullets| && old(state).bullets[k].isPlayer ==>
        old(state).bullets[k] in state.bullets
      ensures forall k :: (0 <= k < |old(state).bullets| && !old(state).bullets[k].isPlayer
                           && !ShotHitsPlayer(old(state).player.pos, old(state).bullets[k])
                           && old(state).bullets[k].pos.y <= height + 50.0) ==> old(state).bullets[k] in state.bullets
      ensures state == old(state).(player := state.player, bullets := state.bullets, particles := state.particles)
      ensures old(idCounter) <= idCounter
      ensures state.bullets == Survivors(old(state).bullets, old(state).player.pos, height)
      ensures Snapshot(state, idCounter) == DodgePhase(m, Snapshot(old(state), old(idCounter)), height, dice)
    {
      var pl, bs, sparks, id, h := ShotsHitPlayer(m, state.player, state.bullets, height, idCounter, dice);
      DamageNTotal(state.player, SHOT_DAMAGE, h);
      state := state.(player := pl, bullets := bs, particles := state.particles + sparks);
      idCounter := id;
      hits := h;
    }

    /** The powerups fall and are picked up. */
    method Pickups(m: MathLib, height: real)
      requires Stable()
      modifies this
      ensures Stable() && Progress(old(state), state) && idCounter == old(idCounter)
      ensures (state.player, state.powerups) == Sweep(m, old(state).player, Map(FallPowerUp, old(state).powerups), height)
      ensures state == old(state).(player := state.player, powerups := state.powerups)
      ensures Snapshot(state, idCounter) == PickupPhase(m, Snapshot(old(state), old(idCounter)), height)
    {
      MovePowerUps();
      CollectPowerUps(m, height);
    }

    /** Enemies and shots move, then the three collision passes. */
    method Combat(m: MathLib, width: real, height: real, dice: Dice)
      returns (ghost armed: RaidenState, ghost hits: nat, ghost killed: seq<Enemy>, ghost survivors: seq<Enemy>,
               ghost left: seq<Shot>)
      requires Stable() && 0.0 <= height && state.player.pos.y <= Max(EDGE, height - EDGE)
      modifies this
      ensures Stable() && Progress(old(state), state) && old(idCounter) <= idCounter
      ensures |armed.enemies| == |old(state).enemies|
      ensures forall k :: 0 <= k < |armed.enemies| ==> armed.enemies[k] == Advanced(old(state).enemies[k], width, height)
      ensures armed.bullets == Map(MoveShot, old(state).bullets
                                   + EnemyShots(m, old(state).enemies, old(state).player.pos, width, height, old(idCounter)))
      ensures armed == old(state).(enemies := armed.enemies, bullets := armed.bullets)
      ensures Clashed(armed, state, height, hits, killed, survivors, left)
      ensures state == old(state).(
        player := state.player, bullets := state.bullets, enemies := state.enemies, particles := state.particles,
        powerups := state.powerups, score := state.score)
      ensures armed == ArmPhase(m, Snapshot(old(state), old(idCounter)), width, height).state
      ensures Snapshot(state, idCounter)
        == CollidePhase(m, ArmPhase(m, Snapshot(old(state), old(idCounter)), width, height), height, dice)
    {
      UpdateEnemies(m, width, height);
      MoveBullets();
      armed := state;
      assert Snapshot(state, idCounter) == ArmPhase(m, Snapshot(old(state), old(idCounter)), width, height);
      hits, killed, survivors, left := Collide(m, height, dice);
    }

    /** The three collision passes: player shots against enemies, ramming,
        enemy shots against the player. */
    method Collide(m: MathLib, height: real, dice: Dice)
      returns (ghost hits: nat, ghost killed: seq<Enemy>, ghost survivors: seq<Enemy>, ghost left: seq<Shot>)
      requires Stable() && 0.0 <= height && state.player.pos.y <= Max(EDGE, height - EDGE)
      modifies this
      ensures Stable() && Progress(old(state), state) && old(idCounter) <= idCounter
      ensures Clashed(old(state), state, height, hits, killed, survivors, left)
      ensures state == old(state).(
        player := state.player, bullets := state.bullets, enemies := state.enemies, particles := state.particles,
        powerups := state.powerups, score := state.score)
      ensures Snapshot(state, idCounter) == CollidePhase(m, Snapshot(old(state), old(idCounter)), height, dice)
    {
      ghost var a := state;
      hits, killed := ResolvePlayerShots(m, dice);
      ghost var s1 := state;
      survivors, left := state.enemies, state.bullets;
      ghost var rams := RamPlayer(m, dice);
      ghost var s2 := state;
      ghost var struck := EnemyFire(m, height, dice);
      ClashedOf(a, s1, s2, state, height, hits, killed, rams, struck);
    }

    /** The start of a live tick: the backdrop scrolls by 3, the player
        moves and fires, and the wave timer runs. */
    method Ready(inputX: real, inputY: real, width: real, height: real, shouldShoot: bool, dice: Dice)
      returns (fired: bool)
      requires Stable() && 0 <= state.waveTimer <= SPAWN_INTERVAL && 0.0 <= width && 0.0 <= height
      modifies this
      ensures Stable() && 0 <= state.waveTimer <= SPAWN_INTERVAL && old(idCounter) <= idCounter
      ensures var p := MovedPlayer(old(state).player, inputX, inputY, width, height);
        && fired == (shouldShoot && p.cooldown - 1 <= 0)
        && state.player == p.(cooldown := if fired then VOLLEY_COOLDOWN else p.cooldown - 1)
      ensures state.powerups == old(state).powerups && state.score == old(state).score
      ensures state.gameOver == old(state).gameOver && state.scroll == old(state).scroll + 3
      ensures state.waveTimer == (if old(state).waveTimer + 1 > SPAWN_INTERVAL then 0 else old(state).waveTimer + 1)
      ensures state.particles == old(state).particles
      ensures EDGE <= state.player.pos.x && EDGE <= state.player.pos.y <= Max(EDGE, height - EDGE)
      ensures var p := MovedPlayer(old(state).player, inputX, inputY, width, height);
        var v := if fired then Volley(p.pos, p.weaponLevel, old(idCounter)) else [];
        var id1 := old(idCounter) + |v|;
        var spawned := old(state).waveTimer + 1 > SPAWN_INTERVAL;
        && state.bullets == old(state).bullets + v
        && state.enemies == old(state).enemies + (if spawned then [MakeEnemy(id1, width, dice.enemy(id1))] else [])
        && idCounter == id1 + (if spawned then 1 else 0)
      ensures Snapshot(state, idCounter)
        == ReadyPhase(Snapshot(old(state), old(idCounter)), inputX, inputY, width, height, shouldShoot, dice)
    {
      state := state.(scroll := state.scroll + 3);
      MovePlayer(inputX, inputY, width, height);
      fired := Shoot(shouldShoot);
      var spawned := AdvanceWave(width, dice);
    }

    /** The live part of a tick before it settles: ready, pickups, then
        movement and the collision passes. */
    method Advance(m: MathLib, width: real, height: real, inputX: real, inputY: real, shouldShoot: bool, dice: Dice)
      returns (fired: bool, ghost armed: RaidenState, ghost hits: nat, ghost killed: seq<Enemy>,
               ghost survivors: seq<Enemy>, ghost left: seq<Shot>)
      requires Valid() && !state.gameOver && 0.0 <= width && 0.0 <= height
      modifies this
      ensures Stable() && 0 <= state.waveTimer <= SPAWN_INTERVAL && !state.gameOver
      ensures var p := MovedPlayer(old(state).player, inputX, inputY, width, height);
        && fired == (shouldShoot && p.cooldown - 1 <= 0)
        && (armed.player, armed.powerups)
           == Sweep(m, p.(cooldown := if fired then VOLLEY_COOLDOWN else p.cooldown - 1),
                    Map(FallPowerUp, old(state).powerups), height)
      ensures Clashed(armed, state, height, hits, killed, survivors, left)
      ensures && state.scroll == old(state).scroll + 3
        && state.waveTimer == (if old(state).waveTimer + 1 > SPAWN_INTERVAL then 0 else old(state).waveTimer + 1)
        && old(state).score <= state.score
        && old(state).player.weaponLevel <= state.player.weaponLevel
        && old(state).player.speedLevel <= state.player.speedLevel
        && EDGE <= state.player.pos.x && EDGE <= state.player.pos.y <= Max(EDGE, height - EDGE)
        && old(idCounter) <= idCounter
      ensures var s0 := Snapshot(old(state), old(idCounter));
        var a := ArmPhase(m, PickupPhase(m, ReadyPhase(s0, inputX, inputY, width, height, shouldShoot, dice), height),
                          width, height);
        armed == a.state && Snapshot(state, idCounter) == CollidePhase(m, a, height, dice)
    {
      fired := Ready(inputX, inputY, width, height, shouldShoot, dice);
      Pickups(m, height);
      armed, hits, killed, survivors, left := Combat(m, width, height, dice);
    }

    /** The end of a live tick: a hull at or below 0 is clamped to 0 and
        ends the game; the particles age and the spent ones go; the enemies
        more than 100 below the bottom go. */
    method Settle(height: real)
      requires Stable() && 0 <= state.waveTimer <= SPAWN_INTERVAL && !state.gameOver
      modifies this
      ensures Valid()
      ensures var hull := old(state).player.hp;
        state == old(state).(player := old(state).player.(hp := if hull <= 0 then 0 else hull), gameOver := hull <= 0,
                             particles := Alive(Map(StepParticle, old(state).particles)),
                             enemies := OnScreen(old(state).enemies, height))
      ensures forall e :: e in state.enemies ==> e.pos.y < height + 100.0
      ensures Snapshot(state, idCounter) == SettlePhase(Snapshot(old(state), old(idCounter)), height)
    {
      if state.player.hp <= 0 {
        state := state.(player := state.player.(hp := 0), gameOver := true);
      }
      var ps := AgeParticles(state.particles);
      state := state.(particles := ps, enemies := OnScreen(state.enemies, height));
    }

    /** `updatePhysics`: nothing moves once the game is over; otherwise one
        tick in the source's order, ending with the hull clamped at 0 (which
        ends the game), the particles aged and the enemies more than 100
        below the bottom dropped. */
    method UpdatePhysics(m: MathLib, width: real, height: real, inputX: real, inputY: real, inputMag: real,
                         shouldShoot: bool, dice: Dice)
      returns (report: Report, ghost fired: bool, ghost armed: RaidenState, ghost hits: nat, ghost killed: seq<Enemy>,
               ghost survivors: seq<Enemy>, ghost left: seq<Shot>, ghost clashed: RaidenState)
      requires Valid() && 0.0 <= width && 0.0 <= height
      modifies this
      ensures Valid()
      ensures !old(state).gameOver ==>
        var p := MovedPlayer(old(state).player, inputX, inputY, width, height);
        && fired == (shouldShoot && p.cooldown - 1 <= 0)
        && (armed.player, armed.powerups)
           == Sweep(m, p.(cooldown := if fired then VOLLEY_COOLDOWN else p.cooldown - 1),
                    Map(FallPowerUp, old(state).powerups), height)
      ensures !old(state).gameOver ==> Clashed(armed, clashed, height, hits, killed, survivors, left)
      ensures !old(state).gameOver ==>
        var hull := clashed.player.hp;
        state == clashed.(player := clashed.player.(hp := if hull <= 0 then 0 else hull), gameOver := hull <= 0,
                          particles := Alive(Map(StepParticle, clashed.particles)),
                          enemies := OnScreen(clashed.enemies, height))
      ensures report == Report(state.score, state.player.hp, state.player.shield, state.gameOver)
      ensures old(state).gameOver ==> state == old(state) && idCounter == old(idCounter)
      ensures !old(state).gameOver ==>
        && state.scroll == old(state).scroll + 3
        && state.waveTimer == (if old(state).waveTimer + 1 > SPAWN_INTERVAL then 0 else old(state).waveTimer + 1)
        && old(state).score <= state.score
        && old(state).player.weaponLevel <= state.player.weaponLevel
        && old(state).player.speedLevel <= state.player.speedLevel
        && EDGE <= state.player.pos.x && EDGE <= state.player.pos.y <= Max(EDGE, height - EDGE)
        && (forall e :: e in state.enemies ==> e.pos.y < height + 100.0)
        && old(idCounter) <= idCounter
      ensures !old(state).gameOver ==>
        var s0 := Snapshot(old(state), old(idCounter));
        var a := ArmPhase(m, PickupPhase(m, ReadyPhase(s0, inputX, inputY, width, height, shouldShoot, dice), height),
                          width, height);
        armed == a.state && clashed == CollidePhase(m, a, height, dice).state
      ensures Snapshot(state, idCounter)
        == PhysicsNext(m, Snapshot(old(state), old(idCounter)), width, height, inputX, inputY, shouldShoot, dice)
    {
      if state.gameOver {
        fired, armed, hits, killed, survivors, left, clashed := false, state, 0, [], [], [], state;
        report := Report(state.score, state.player.hp, state.player.shield, true);
        return;
      }
      var f;
      f, armed, hits, killed, survivors, left := Advance(m, width, height, inputX, inputY, shouldShoot, dice);
      fired := f;
      clashed := state;
      Settle(height);
      report := Report(state.score, state.player.hp, state.player.shield, state.gameOver);
    }
  }
}
