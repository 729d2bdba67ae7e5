/** The fighters' static data: character states, the attack descriptors each archetype
    loads for each attack direction, the knockback-angle tables and the hitbox each
    attack spawns. Everything here is a pure function of its arguments. */
module Moves {
  import opened Common
  import Input

  /** `Character` and its three subclasses. */
  datatype Archetype = Generic | Warrior | Speedster | Heavy

  datatype CharState =
    | Idle | Walking | Running | Jumping | Falling | Landing | Crouching
    | LightAttack | HeavyAttack | SideSpecial | UpSpecial | DownSpecial | NeutralSpecial
    | Blocking | HitStun | Knockdown | Grabbing | Grabbed

  /** The `type` of an attack descriptor. The first four belong to `Character` itself;
      `TornadoSpin` is named by the Speedster's offset and angle tables although no
      descriptor carries it. */
  datatype AttackKind =
    | BasicNeutral | BasicSide | BasicUp | BasicDown
    | SwordSlash | SwordThrust | RisingSlash | EnergyProjectile
    | LightningJab | DashAttack | LightningDash | WhirlwindFlight | SpeedBoost | TornadoSpin
    | HeavyPunch | HammerSlam | GroundPound | ArmorStance

  /** An attack descriptor. Optional keys the code reads with a default are `Option`s;
      keys no code reads (`launches_upward`, `has_movement`, `is_buff`, `has_shockwave`,
      `is_stance`, the flight's own `knockback_angle`) are not kept. */
  datatype Attack = Attack(
    kind: AttackKind, startup: int, active: int, recovery: int, damage: int, knockback: int,
    range: Option<int>, armorFrames: Option<int>, isBodySlam: bool,
    isMultihit: bool, hitInterval: Option<int>, buffDuration: int, stanceDuration: int)

  function Plain(kind: AttackKind, startup: int, active: int, recovery: int, damage: int, knockback: int,
                 range: Option<int>): Attack
  {
    Attack(kind, startup, active, recovery, damage, knockback, range, None, false, false, None, 0, 0)
  }

  /** The state an attack direction puts a fighter in when its branch exists. */
  function AttackState(d: Input.AttackDirection): CharState
  {
    match d
    case Neutral => LightAttack
    case Side => HeavyAttack
    case Up => UpSpecial
    case Down => DownSpecial
    case SideSpecial => SideSpecial
    case NeutralSpecial => NeutralSpecial
    case UpSpecial => UpSpecial
    case DownSpecial => DownSpecial
  }

  /** Directions for which the archetype's `perform_attack` has a branch. Only the
      Speedster handles a special direction (`side_special`). */
  predicate HasBranch(a: Archetype, d: Input.AttackDirection)
  {
    d.Neutral? || d.Side? || d.Up? || d.Down? || (a == Speedster && d.SideSpecial?)
  }

  const FlightFrames := 120

  /** The descriptor each branch loads. */
  function Descriptor(a: Archetype, d: Input.AttackDirection): (atk: Attack)
    requires HasBranch(a, d)
    ensures atk.startup >= 1 && atk.active >= 1 && atk.recovery >= 0
    ensures atk.damage >= 0 && atk.knockback >= 0
    ensures atk.isMultihit ==> atk.hitInterval.Some? && atk.hitInterval.value >= 1
    ensures atk.isBodySlam <==> atk.kind == HammerSlam
    ensures atk.armorFrames.Some? <==> atk.kind == HeavyPunch || atk.kind == HammerSlam
    ensures a != Generic ==> atk.range.Some?
  {
    match a
    case Generic =>
      (match d
       case Neutral => Plain(BasicNeutral, 6, 4, 8, 8, 5, None)
       case Side => Plain(BasicSide, 8, 5, 12, 12, 8, None)
       case Up => Plain(BasicUp, 10, 6, 15, 10, 12, None)
       case Down => Plain(BasicDown, 12, 3, 20, 15, 10, None))
    case Warrior =>
      (match d
       case Neutral => Plain(SwordSlash, 5, 4, 6, 7, 4, Some(70))
       case Side => Plain(SwordThrust, 12, 6, 18, 15, 10, Some(90))
       case Up => Plain(RisingSlash, 8, 8, 20, 16, 15, Some(60))
       case Down => Plain(EnergyProjectile, 20, 5, 25, 10, 8, Some(300)))
    case Speedster =>
      (match d
       case Neutral => Plain(LightningJab, 3, 2, 0, 12, 4, Some(50))
       case Side => Plain(DashAttack, 1, 8, 1, 15, 6, Some(65))
       case SideSpecial =>
         Attack(LightningDash, 5, 15, 20, 4, 5, Some(80), None, false, true, Some(5), 0, 0)
       case Up =>
         Attack(WhirlwindFlight, 5, FlightFrames, 5, 2, 3, Some(60), None, false, true, Some(10), 0, 0)
       case Down =>
         Attack(SpeedBoost, 8, 6, 6, 0, 0, Some(0), None, false, false, None, 180, 0))
    case Heavy =>
      (match d
       case Neutral => Attack(HeavyPunch, 8, 6, 18, 18, 9, Some(75), Some(10), false, false, None, 0, 0)
       case Side => Attack(HammerSlam, 12, 25, 30, 18, 8, Some(0), Some(40), true, false, None, 0, 0)
       case Up => Plain(GroundPound, 5, 30, 30, 26, 12, Some(120))
       case Down => Attack(ArmorStance, 10, 8, 12, 0, 0, Some(0), None, false, false, None, 0, 240))
  }

  /** `Character.get_knockback_angle`: up-launching and down-spiking base attacks. */
  function BaseAngle(k: AttackKind): (deg: int)
    ensures deg < 0 <==> k == BasicUp
    ensures deg > 0 <==> k == BasicDown
  {
    if k == BasicUp then -75 else if k == BasicDown then 45 else 0
  }

  /** `get_warrior_knockback_angle`: only the rising slash and the thrust send upward. */
  function WarriorAngle(k: AttackKind): (deg: int)
    ensures deg <= 0 && (deg < 0 <==> k == RisingSlash || k == SwordThrust)
  {
    if k == RisingSlash then -80 else if k == SwordThrust then -10 else 0
  }

  /** `get_speedster_knockback_angle`: depends on the type only. */
  function SpeedsterAngle(k: AttackKind): (deg: int)
    ensures deg <= 0 && (deg < 0 <==> k == TornadoSpin || k == DashAttack)
  {
    if k == TornadoSpin then -45 else if k == DashAttack then -5 else 0
  }

  /** `get_heavy_knockback_angle`. */
  function HeavyAngle(k: AttackKind): (deg: int)
    ensures deg <= 0 && (deg < 0 <==> k == GroundPound || k == HammerSlam)
  {
    if k == GroundPound then -60 else if k == HammerSlam then -20 else 0
  }

  /** The interval the resolver assumes for a box that carries none. */
  const DefaultHitInterval := 4

  /** A hitbox or projectile dict. Keys absent from a dict take the value the resolver
      would default them to (`last_hit_frame` 0, `hit_interval` 4); projectile-only keys
      are 0 on melee boxes and `frames_remaining` is 0 on projectiles, where it is never read.
      The `owner` is the fighter whose list holds the box. */
  datatype Hitbox = Hitbox(
    x: real, y: real, width: int, height: int, damage: int, knockback: int, angle: int,
    framesRemaining: int, isProjectile: bool, vx: real, vy: real, lifetime: int,
    isMultihit: bool, hitInterval: int, lastHitFrame: int)

  function MeleeBox(x: real, y: real, width: int, height: int, atk: Attack, angle: int, frames: int): (h: Hitbox)
    ensures !h.isProjectile && !h.isMultihit && h.lastHitFrame == 0
  {
    Hitbox(x, y, width, height, atk.damage, atk.knockback, angle, frames, false, 0.0, 0.0, 0, false, DefaultHitInterval, 0)
  }

  function Facing(facingRight: bool, offset: real): real
  {
    if facingRight then offset else -offset
  }

  /** `Character.create_attack_hitbox`: 50x50, in front at chest height, above for `up`,
      at the feet for `down`. */
  function BasicHitbox(atk: Attack, x: real, y: real, facingRight: bool): (h: Hitbox)
    ensures !h.isProjectile && !h.isMultihit && h.framesRemaining == atk.active
  {
    var (ox, oy) := if atk.kind == BasicUp then (0.0, -80.0)
                    else if atk.kind == BasicDown then (0.0, -10.0)
                    else (Facing(facingRight, 60.0), -40.0);
    MeleeBox(x + ox, y + oy, 50, 50, atk, BaseAngle(atk.kind), atk.active)
  }

  /** Warrior melee box: `range` ahead (default 60) at y-40; rising slash 20 ahead at
      y-100; thrust at y-50. */
  function WarriorMelee(atk: Attack, x: real, y: real, facingRight: bool): (h: Hitbox)
    ensures !h.isProjectile && h.framesRemaining == atk.active
  {
    var range := if atk.range.Some? then atk.range.value else 60;
    var ox := if atk.kind == RisingSlash then Facing(facingRight, 20.0) else Facing(facingRight, range as real);
    var oy := if atk.kind == RisingSlash then -100.0 else if atk.kind == SwordThrust then -50.0 else -40.0;
    MeleeBox(x + ox, y + oy, 60, 50, atk, WarriorAngle(atk.kind), atk.active)
  }

  const ProjectileSpeed := 8.0
  const ProjectileLifetime := 60

  /** `Warrior.create_projectile`: a 30x20 energy ball 40 ahead at y-40, moving 8 per
      frame in the facing direction, living 60 frames. */
  function WarriorProjectile(atk: Attack, x: real, y: real, facingRight: bool): (h: Hitbox)
    ensures h.isProjectile && !h.isMultihit
  {
    var dir := if facingRight then 1.0 else -1.0;
    Hitbox(x + 40.0 * dir, y - 40.0, 30, 20, atk.damage, atk.knockback, 0, 0, true,
           ProjectileSpeed * dir, 0.0, ProjectileLifetime, false, DefaultHitInterval, 0)
  }

  /** Speedster box: `range` ahead (default 50) at y-35 (tornado spin: centred at y-50),
      carrying the descriptor's multi-hit flag and interval (default 1). */
  function SpeedsterHitbox(atk: Attack, x: real, y: real, facingRight: bool): (h: Hitbox)
    ensures !h.isProjectile && h.framesRemaining == atk.active
    ensures h.isMultihit == atk.isMultihit && h.hitInterval == if atk.hitInterval.Some? then atk.hitInterval.value else 1
  {
    var range := if atk.range.Some? then atk.range.value else 50;
    var (ox, oy) := if atk.kind == TornadoSpin then (0.0, -50.0) else (Facing(facingRight, range as real), -35.0);
    Hitbox(x + ox, y + oy, 50, 45, atk.damage, atk.knockback, SpeedsterAngle(atk.kind), atk.active, false,
           0.0, 0.0, 0, atk.isMultihit, if atk.hitInterval.Some? then atk.hitInterval.value else 1, 0)
  }

  /** Heavy box: 70x60, `range` ahead (default 75) at y-50. */
  function HeavyHitbox(atk: Attack, x: real, y: real, facingRight: bool): (h: Hitbox)
    ensures !h.isProjectile && !h.isMultihit && h.framesRemaining == atk.active
  {
    var range := if atk.range.Some? then atk.range.value else 75;
    MeleeBox(x + Facing(facingRight, range as real), y - 50.0, 70, 60, atk, HeavyAngle(atk.kind), atk.active)
  }

  /** `create_ground_pound_hitbox`'s shockwave: 120x80 around the feet, 10 frames, 45 degrees. */
  function Shockwave(data: Attack, x: real, y: real): (h: Hitbox)
    ensures !h.isProjectile && !h.isMultihit
  {
    MeleeBox(x, y - 20.0, 120, 80, data, 45, 10)
  }

  /** Archetype constants. */
  function Weight(a: Archetype): (w: real)
    ensures w > 0.0
  {
    match a
    case Generic => 1.0
    case Warrior => 1.0
    case Speedster => 0.7
    case Heavy => 1.8
  }

  function JumpStrength(a: Archetype): real
  {
    if a == Generic then 15.0 else 16.0
  }

  const ShortHopStrength := 8.0

  /** Initial (and, for the Speedster, un-boosted) walk, run and ground-acceleration values. */
  function BaseWalk(a: Archetype): real { if a == Speedster then 10.0 else 8.0 }
  function BaseRun(a: Archetype): real { if a == Speedster then 16.0 else 12.0 }
  function BaseAccel(a: Archetype): real { if a == Speedster then 1.6 else 1.2 }

  const SpeedsterAirSpeed := 6.0
  const UpSpecialCooldownFrames := 600
  const SideSpecialCooldownFrames := 300
  const SideSpecialBurst := 18.0
  const BodySlamSpeed := 9.0

  function DisplayName(a: Archetype): string
  {
    match a
    case Generic => "Base Character"
    case Warrior => "Warrior"
    case Speedster => "Speedster"
    case Heavy => "Heavy"
  }
}
