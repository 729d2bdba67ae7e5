/** The per-tick resolver as functions on values: gravity, the sub-stepped move with a
    platform test and a blast-zone check after every sub-step, body slams, and each
    fighter's hitboxes against the other fighter. The resolver always receives the two
    fighters of the match, player 1 first, so it is stated on a pair. `Resolver.PhysicsManager`
    performs the same steps in place and is proved to agree with these functions. */
module Physics {
  import opened Common
  import opened Geometry
  import opened Moves
  import opened Fighters
  import opened Stages

  const Gravity := 0.8
  const AirFriction := 0.02
  const GroundFriction := 0.15
  const TerminalVelocity := 20.0
  /** The longest sub-step, per axis. */
  const SubstepLength := 10.0
  /** The angle of a body-slam hit. */
  const SlamAngle := -10
  /** What a body slam keeps of the attacker's horizontal speed once it connects. */
  const SlamRecoil := 0.2

  // ---------------------------------------------------------------- gravity

  /** The resolver's own gravity, for a stage without one of its own. */
  function DefaultGravity(b: Body): (r: Body)
    ensures r == b.(vx := r.vx, vy := r.vy)
  {
    if !b.onGround then
      var vy := b.vy + Gravity;
      b.(vy := if vy > TerminalVelocity then TerminalVelocity else vy, vx := b.vx * (1.0 - AirFriction))
    else b.(vx := b.vx * (1.0 - GroundFriction))
  }

  /** The stage's gravity when it has one (Battlefield, Plains), the default otherwise. */
  function ApplyGravity(s: StageView, b: Body): (r: Body)
    requires WellFormed(s)
  {
    if s.kind.BaseStage? then DefaultGravity(b) else StageGravity(s, b)
  }

  // ---------------------------------------------------------------- sub-steps

  /** How many sub-steps a move of (dx, dy) is cut into: one per started 10 px of the
      longer axis. */
  function SubstepCount(dx: real, dy: real): (n: nat)
    ensures n >= 1
  {
    var m := Max(Abs(dx), Abs(dy));
    (m / SubstepLength).Floor + 1
  }

  /** The landing band: the feet within 5 above to 10 below the top, and the body's
      horizontal span overlapping the platform inset by 5 on each side. */
  predicate OnPlatform(b: Body, p: Platform)
  {
    b.y >= p.y - 5.0 && b.y <= p.y + 10.0 &&
    b.x + (Width as real) / 2.0 > p.x + 5.0 && b.x - (Width as real) / 2.0 < p.x + p.width as real - 5.0
  }

  /** `check_platform_landing` once it found the body in the band: a falling body snaps
      to the top and stops; either way it stands. */
  function Land(b: Body, p: Platform): (r: Body)
    ensures r.onGround
    ensures r == b.(y := r.y, vy := r.vy, onGround := true)
  {
    if b.vy > 0.0 then b.(y := p.y, vy := 0.0, onGround := true) else b.(onGround := true)
  }

  /** The index of the first platform, in list order, whose band holds the body. */
  function FirstLanding(b: Body, ps: seq<Platform>): (r: Option<nat>)
    ensures r.Some? ==> r.value < |ps| && OnPlatform(b, ps[r.value])
    ensures r.Some? ==> forall j :: 0 <= j < r.value ==> !OnPlatform(b, ps[j])
    ensures r.None? ==> forall j :: 0 <= j < |ps| ==> !OnPlatform(b, ps[j])
    decreases |ps|
  {
    if |ps| == 0 then None
    else if OnPlatform(b, ps[0]) then Some(0)
    else match FirstLanding(b, ps[1..])
      case None => None
      case Some(i) => Some(i + 1)
  }

  /** `handle_modern_stage_collision`: land on the first platform that takes the body;
      with none, become airborne, and FALLING unless still rising. */
  function StageCollision(f: Fighter, ps: seq<Platform>): (r: Fighter)
  {
    match FirstLanding(f.body, ps)
    case Some(i) => f.(body := Land(f.body, ps[i]))
    case None =>
      var g := f.(body := f.body.(onGround := false));
      if g.body.vy >= 0.0 then ChangeState(g, Falling) else g
  }

  // ---------------------------------------------------------------- blast zones

  /** Where a KO happened and through which zone. */
  datatype Ko = Ko(direction: KoDirection, x: real, y: real)

  /** The zone a position violates, tested left, right, top, bottom; the first that
      fails is reported. */
  function BlastKo(x: real, y: real, z: BlastZones): (r: Option<KoDirection>)
  {
    if x < z.left then Some(KoLeft)
    else if x > z.right then Some(KoRight)
    else if y < z.top then Some(KoTop)
    else if y > z.bottom then Some(KoBottom)
    else None
  }

  /** Inside every zone bound, bounds included. */
  predicate InsideBlastZones(x: real, y: real, z: BlastZones)
  {
    z.left <= x <= z.right && z.top <= y <= z.bottom
  }

  /** `check_blast_zone_ko`: a player is flagged at most once per tick, with the first
      KO found. */
  function RecordKo(kos: map<int, Ko>, id: int, x: real, y: real, z: BlastZones): (r: map<int, Ko>)
  {
    match BlastKo(x, y, z)
    case None => kos
    case Some(d) => if id in kos then kos else kos[id := Ko(d, x, y)]
  }

  /** One sub-step: move, then the platform test. */
  function Substep(f: Fighter, sx: real, sy: real, s: StageView): (r: Fighter)
  {
    StageCollision(f.(body := f.body.(x := f.body.x + sx, y := f.body.y + sy)), s.platforms)
  }

  /** `n` sub-steps, each followed by the blast-zone check. */
  function Substeps(f: Fighter, sx: real, sy: real, n: nat, s: StageView, kos: map<int, Ko>): (r: (Fighter, map<int, Ko>))
    decreases n
  {
    if n == 0 then (f, kos)
    else
      var g := Substep(f, sx, sy, s);
      Substeps(g, sx, sy, n - 1, s, RecordKo(kos, g.playerId, g.body.x, g.body.y, s.blast))
  }

  /** Reference definition: the KO of the first of `n` sub-steps that ends outside the
      blast zones. */
  function FirstKo(f: Fighter, sx: real, sy: real, n: nat, s: StageView): Option<Ko>
    decreases n
  {
    if n == 0 then None
    else
      var g := Substep(f, sx, sy, s);
      match BlastKo(g.body.x, g.body.y, s.blast)
      case Some(d) => Some(Ko(d, g.body.x, g.body.y))
      case None => FirstKo(g, sx, sy, n - 1, s)
  }

  /** A map with the entry for `id` added when there is none and `k` holds one. */
  function AddFirst(kos: map<int, Ko>, id: int, k: Option<Ko>): map<int, Ko>
  {
    if id in kos || k.None? then kos else kos[id := k.value]
  }

  /** The displacement of this tick: velocity times 60·dt. */
  function Movement(v: real, dt: real): real
  {
    v * 60.0 * dt
  }

  /** Gravity on the fighter's velocity, before it moves. */
  function Fall(f: Fighter, s: StageView): (r: Fighter)
    requires WellFormed(s)
  {
    f.(body := ApplyGravity(s, f.body))
  }

  /** `update_character_physics`. */
  function CharacterPhysics(f: Fighter, dt: real, s: StageView, kos: map<int, Ko>): (r: (Fighter, map<int, Ko>))
    requires WellFormed(s)
  {
    var g := Fall(f, s);
    var dx := Movement(g.body.vx, dt);
    var dy := Movement(g.body.vy, dt);
    var n := SubstepCount(dx, dy);
    Substeps(g, dx / n as real, dy / n as real, n, s, kos)
  }

  // ---------------------------------------------------------------- hits

  /** The horizontal sign of a launch: away from the attacker, leftwards on a tie. */
  function Direction(attackerX: real, defenderX: real): (r: real)
    ensures r == 1.0 || r == -1.0
  {
    if attackerX < defenderX then 1.0 else -1.0
  }

  /** The horizontal part of a launch: the force times |cos angle|, away from the attacker. */
  function KnockbackX(attackerX: real, defenderX: real, knockback: int, angle: int, num: Numerics): real
  {
    Direction(attackerX, defenderX) * knockback as real * Abs(num.cosDeg(angle))
  }

  /** The vertical part of a launch: minus the force times sin angle, up being negative. */
  function KnockbackY(knockback: int, angle: int, num: Numerics): real
  {
    -(knockback as real) * num.sinDeg(angle)
  }

  /** `apply_hit`: the knockback force split by the angle, its horizontal part pointing
      away from the attacker, passed to the defender's `take_damage`. */
  function ApplyHit(damage: int, knockback: int, angle: int, attackerX: real, d: Fighter, num: Numerics): (r: Fighter)
  {
    TakeDamage(d, damage as real, KnockbackX(attackerX, d.body.x, knockback, angle, num), KnockbackY(knockback, angle, num), num)
  }

  /** One attacker's body slam against the other fighter: on contact, the attack's damage
      and knockback at -10 degrees, then the attack ends and the attacker keeps a fifth
      of its speed. */
  function SlamPass(a: Fighter, d: Fighter, num: Numerics): (r: (Fighter, Fighter))
  {
    if InBodySlam(a) && Collide(CollisionRect(a), CollisionRect(d)) then
      var atk := a.currentAttack.value;
      var hit := ApplyHit(atk.damage, atk.knockback, SlamAngle, a.body.x, d, num);
      var e := EndAttack(a);
      (SetVx(e, e.body.vx * SlamRecoil), hit)
    else (a, d)
  }

  /** The body-slam loop: player 1 as attacker, then player 2. */
  function BodySlams(p1: Fighter, p2: Fighter, num: Numerics): (r: (Fighter, Fighter))
  {
    var (a1, d2) := SlamPass(p1, p2, num);
    var (a2, d1) := SlamPass(d2, a1, num);
    (d1, a2)
  }

  /** A box one frame older: a projectile moves and loses a frame of lifetime, any other
      box loses an active frame. */
  function AgeBox(h: Hitbox): (r: Hitbox)
  {
    if h.isProjectile then ProjectileStep(h) else h.(framesRemaining := h.framesRemaining - 1)
  }

  /** The resolver's removal test on an aged box. */
  predicate Expired(h: Hitbox)
  {
    if h.isProjectile then h.lifetime <= 0 || h.x < -100.0 || h.x > 1380.0 || h.y > 800.0
    else h.framesRemaining <= 0
  }

  /** The box's rectangle, centred on its position. */
  function BoxRect(h: Hitbox): (r: Rect)
    ensures r.width == h.width && r.height == h.height
  {
    RectAt(h.x - (h.width / 2) as real, h.y - (h.height / 2) as real, h.width, h.height)
  }

  /** A multi-hit box lands only once `hit_interval` frames have passed since its last hit. */
  predicate Due(h: Hitbox, frame: int)
  {
    frame - h.lastHitFrame >= h.hitInterval
  }

  datatype BoxOutcome = BoxOutcome(box: Hitbox, remove: bool, defender: Fighter)

  /** One box of the attacker against the defender: it ages; an expired box is flagged
      untested; a single-hit box that touches the defender hits and is flagged; a
      multi-hit box that touches it hits only when due, records the frame and stays. */
  function BoxStep(attackerX: real, frame: int, h: Hitbox, d: Fighter, num: Numerics): (r: BoxOutcome)
  {
    var g := AgeBox(h);
    if Expired(g) then BoxOutcome(g, true, d)
    else if !Collide(BoxRect(g), CollisionRect(d)) then BoxOutcome(g, false, d)
    else if g.isMultihit then
      if Due(g, frame) then BoxOutcome(g.(lastHitFrame := frame), false, ApplyHit(g.damage, g.knockback, g.angle, attackerX, d, num))
      else BoxOutcome(g, false, d)
    else BoxOutcome(g, true, ApplyHit(g.damage, g.knockback, g.angle, attackerX, d, num))
  }

  datatype PassResult = PassResult(boxes: seq<Hitbox>, remove: seq<bool>, defender: Fighter)

  /** The attacker's boxes in list order, each against the defender as the previous ones
      left it. */
  function BoxPass(attackerX: real, frame: int, boxes: seq<Hitbox>, d: Fighter, num: Numerics): (r: PassResult)
    ensures |r.boxes| == |boxes| && |r.remove| == |boxes|
    decreases |boxes|
  {
    if |boxes| == 0 then PassResult([], [], d)
    else
      var p := BoxPass(attackerX, frame, boxes[..|boxes| - 1], d, num);
      var o := BoxStep(attackerX, frame, boxes[|boxes| - 1], p.defender, num);
      PassResult(p.boxes + [o.box], p.remove + [o.remove], o.defender)
  }

  /** One attacker's hitbox pass; the flagged boxes go after the whole pass. */
  function HitboxPass(a: Fighter, d: Fighter, num: Numerics): (r: (Fighter, Fighter))
  {
    var p := BoxPass(a.body.x, a.status.attackFrames, a.hitboxes, d, num);
    (a.(hitboxes := Kept(p.boxes, p.remove)), p.defender)
  }

  /** `check_combat_collisions`: body slams for both, then player 1's boxes against player
      2, then player 2's against player 1. */
  function Combat(p1: Fighter, p2: Fighter, num: Numerics): (r: (Fighter, Fighter))
  {
    var (a1, a2) := BodySlams(p1, p2, num);
    var (b1, b2) := HitboxPass(a1, a2, num);
    var (c2, c1) := HitboxPass(b2, b1, num);
    (c1, c2)
  }

  /** Both fighters' gravity and movement, player 1 first, from an empty KO map. */
  function Motion(p1: Fighter, p2: Fighter, s: StageView, dt: real): (r: (Fighter, Fighter, map<int, Ko>))
    requires WellFormed(s)
  {
    var (q1, k1) := CharacterPhysics(p1, dt, s, map[]);
    var (q2, k2) := CharacterPhysics(p2, dt, s, k1);
    (q1, q2, k2)
  }

  /** `PhysicsManager.update`: the fighters after the tick and the KOs flagged in it. */
  function Step(p1: Fighter, p2: Fighter, s: StageView, dt: real, num: Numerics): (r: (Fighter, Fighter, map<int, Ko>))
    requires WellFormed(s)
  {
    var (q1, q2, kos) := Motion(p1, p2, s, dt);
    var (r1, r2) := Combat(q1, q2, num);
    (r1, r2, kos)
  }
}
