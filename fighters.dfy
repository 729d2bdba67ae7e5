/** The fighter state machine as functions on a value: one `Fighter` record holds every
    field `Character` and its three subclasses update, and each operation of the classes
    is a function from the old record to the new one. `Characters.Character` performs the
    same operations in place and is proved to agree with these functions. */
module Fighters {
  import opened Common
  import opened Geometry
  import opened Moves
  import Input

  const Width := 60
  const Height := 80
  const GroundDeceleration := 1.8
  const AirAcceleration := 0.6
  const AirDeceleration := 0.3
  /** Seconds spent in LANDING before returning to IDLE. */
  const LandingLag := 0.2
  /** Seconds of invincibility after a hit. */
  const HitInvincibility := 0.3

  /** Position, velocity, facing and the ground flags. */
  datatype Body = Body(x: real, y: real, vx: real, vy: real, facingRight: bool,
                       onGround: bool, canJump: bool, coyoteTime: real)

  /** Walk speed, run speed and ground acceleration: the values the Speedster's buff
      rewrites. */
  datatype Tuning = Tuning(maxWalkSpeed: real, maxRunSpeed: real, groundAcceleration: real)

  /** The state machine and its timers. */
  datatype Status = Status(state: CharState, previousState: CharState, stateTimer: real, canAct: bool,
                           isAttacking: bool, attackFrames: int, hitStunTimer: real,
                           invincibilityTimer: real, respawnInvincibility: int)

  /** The Speedster's own fields. */
  datatype SpeedsterKit = SpeedsterKit(boostActive: bool, boostTimer: int, isFlyingUp: bool, flightTimer: int,
                                       sideAttackCooldown: int, sideSpecialCooldown: int)

  /** The Heavy's own fields. */
  datatype HeavyKit = HeavyKit(hasSuperArmor: bool, armorTimer: int, powerStanceActive: bool, powerStanceTimer: int,
                               damageMultiplier: real, isGroundPounding: bool, groundPoundData: Option<Attack>)

  /** Every field the simulation reads or writes. Visual-only fields (`animation_frame`,
      `hit_flash_timer`, `screen_shake_intensity`) are not kept. The kit of an archetype
      sits unused, at its initial values, in the others; `upSpecialCooldown` is shared by
      the Speedster and the Heavy. */
  datatype Fighter = Fighter(
    archetype: Archetype, playerId: int, body: Body, tuning: Tuning,
    lives: int, damagePercent: real, status: Status,
    hitboxes: seq<Hitbox>, currentAttack: Option<Attack>, hitboxCreated: bool,
    upSpecialCooldown: int, speedster: SpeedsterKit, heavy: HeavyKit)

  function BaseTuning(a: Archetype): Tuning
  {
    Tuning(BaseWalk(a), BaseRun(a), BaseAccel(a))
  }

  function BoostedTuning(a: Archetype): Tuning
  {
    Tuning(BaseWalk(a) * 1.5, BaseRun(a) * 1.5, BaseAccel(a) * 1.3)
  }

  /** A freshly constructed fighter of the given archetype. */
  function NewFighter(a: Archetype, x: real, y: real, playerId: int): (f: Fighter)
    ensures f.body.facingRight <==> playerId == 1
    ensures f.lives == 3 && f.damagePercent == 0.0 && f.body.onGround && f.status.canAct && f.status.state == Idle
    ensures f.hitboxes == [] && f.currentAttack.None?
    ensures Consistent(f)
  {
    Fighter(a, playerId, Body(x, y, 0.0, 0.0, playerId == 1, true, true, 0.0), BaseTuning(a),
            3, 0.0, Status(Idle, Idle, 0.0, true, false, 0, 0.0, 0.0, 0),
            [], None, false,
            0, SpeedsterKit(false, 0, false, 0, 0, 0), HeavyKit(false, 0, false, 0, 1.0, false, None))
  }

  // ---------------------------------------------------------------- invariants

  /** Speeds are the archetype's base values, or the Speedster's boosted ones while its
      buff is active. */
  predicate SpeedsConsistent(f: Fighter)
  {
    if f.speedster.boostActive then f.archetype == Speedster && f.tuning == BoostedTuning(Speedster)
    else f.tuning == BaseTuning(f.archetype)
  }

  /** What every descriptor in the tables satisfies. */
  predicate ValidAttack(atk: Attack)
  {
    atk.startup >= 1 && atk.active >= 1 && atk.recovery >= 0 &&
    (atk.isMultihit ==> atk.hitInterval.Some? && atk.hitInterval.value >= 1)
  }

  predicate ValidLoaded(a: Option<Attack>)
  {
    a.Some? ==> ValidAttack(a.value)
  }

  predicate MultihitIntervalsPositive(boxes: seq<Hitbox>)
  {
    forall b :: b in boxes && b.isMultihit ==> b.hitInterval >= 1
  }

  /** What holds of every fighter the game builds, before and after every operation:
      coyote time is never positive, the Speedster's side-attack cooldown is never set,
      speeds are base or boosted, loaded descriptors come from the tables and multi-hit
      boxes have a positive interval. */
  predicate Consistent(f: Fighter)
  {
    f.body.coyoteTime == 0.0 && f.speedster.sideAttackCooldown == 0 && SpeedsConsistent(f) &&
    ValidLoaded(f.currentAttack) && ValidLoaded(f.heavy.groundPoundData) &&
    MultihitIntervalsPositive(f.hitboxes)
  }

  /** The fields only the timers, the jump, the Speedster buff and the Speedster
      countdowns write. */
  predicate KeepsTuning(f: Fighter, g: Fighter)
  {
    g.archetype == f.archetype && g.playerId == f.playerId && g.tuning == f.tuning &&
    g.speedster.boostActive == f.speedster.boostActive &&
    g.body.coyoteTime == f.body.coyoteTime && g.speedster.sideAttackCooldown == f.speedster.sideAttackCooldown
  }

  /** Keeps the tuning fields, appends only boxes with a positive multi-hit interval and
      loads only valid descriptors. */
  predicate Preserves(f: Fighter, g: Fighter)
  {
    KeepsTuning(f, g) &&
    (MultihitIntervalsPositive(f.hitboxes) ==> MultihitIntervalsPositive(g.hitboxes)) &&
    (ValidLoaded(f.currentAttack) ==> ValidLoaded(g.currentAttack)) &&
    (ValidLoaded(f.heavy.groundPoundData) ==> ValidLoaded(g.heavy.groundPoundData))
  }

  // ---------------------------------------------------------------- state changes

  function SetVx(f: Fighter, v: real): Fighter { f.(body := f.body.(vx := v)) }
  function SetVy(f: Fighter, v: real): Fighter { f.(body := f.body.(vy := v)) }

  predicate FreesAction(s: CharState)
  {
    s == Idle || s == Walking || s == Running
  }

  /** `change_state`. Entering LANDING runs a check of `state_timer > 0.2` right after
      zeroing the timer, which can never fire; it is left out. */
  function ChangeState(f: Fighter, s: CharState): (r: Fighter)
    ensures s == f.status.state ==> r == f
    ensures r.status.state == s
    ensures r == f.(status := r.status, body := r.body) && r.body == f.body.(onGround := r.body.onGround)
  {
    if s == f.status.state then f
    else
      var st := f.status.(previousState := f.status.state, state := s, stateTimer := 0.0);
      if s == Landing then f.(status := st.(canAct := false))
      else if FreesAction(s) then f.(status := st.(canAct := true, isAttacking := false, attackFrames := 0))
      else if s == Falling then f.(status := st, body := f.body.(onGround := false))
      else f.(status := st)
  }

  // ---------------------------------------------------------------- timers

  /** Frame countdown that stops at zero. */
  function Countdown(c: int): (r: int)
    ensures c >= 0 ==> r >= 0
    ensures c > 0 ==> r == c - 1
    ensures c <= 0 ==> r == c
  {
    if c > 0 then c - 1 else c
  }

  /** The timer prologue of `update`: state time grows, the other timers run down to 0. */
  function TickTimers(f: Fighter, dt: real): (r: Fighter)
    ensures r.status.hitStunTimer >= 0.0 && r.status.invincibilityTimer >= 0.0
    ensures r.body.coyoteTime >= 0.0 && r.status.respawnInvincibility >= 0
    ensures f.status.hitStunTimer >= dt ==> r.status.hitStunTimer == f.status.hitStunTimer - dt
    ensures f.status.hitStunTimer <= dt ==> r.status.hitStunTimer == 0.0
    ensures f.status.invincibilityTimer >= dt ==> r.status.invincibilityTimer == f.status.invincibilityTimer - dt
    ensures f.status.invincibilityTimer <= dt ==> r.status.invincibilityTimer == 0.0
    ensures f.body.coyoteTime <= dt ==> r.body.coyoteTime == 0.0
    ensures f.status.respawnInvincibility >= 1 ==> r.status.respawnInvincibility == f.status.respawnInvincibility - 1
    ensures r.status.stateTimer == f.status.stateTimer + dt
    ensures r == f.(status := r.status, body := f.body.(coyoteTime := r.body.coyoteTime))
    ensures r.status == f.status.(stateTimer := r.status.stateTimer, hitStunTimer := r.status.hitStunTimer,
                                  invincibilityTimer := r.status.invincibilityTimer,
                                  respawnInvincibility := r.status.respawnInvincibility)
  {
    f.(status := f.status.(stateTimer := f.status.stateTimer + dt,
                           hitStunTimer := Max(0.0, f.status.hitStunTimer - dt),
                           invincibilityTimer := Max(0.0, f.status.invincibilityTimer - dt),
                           respawnInvincibility := if f.status.respawnInvincibility - 1 > 0
                                                   then f.status.respawnInvincibility - 1 else 0),
       body := f.body.(coyoteTime := Max(0.0, f.body.coyoteTime - dt)))
  }

  // ---------------------------------------------------------------- movement

  /** One acceleration step: moves `v` toward `target` by at most `limit`. */
  function Approach(v: real, target: real, limit: real): (r: real)
    ensures limit >= 0.0 ==> Abs(r - v) <= limit
    ensures limit >= 0.0 && v <= target ==> v <= r <= target
    ensures limit >= 0.0 && v >= target ==> target <= r <= v
    ensures Abs(target - v) <= limit ==> r == target
  {
    var diff := target - v;
    v + Sign(diff) * Min(Abs(diff), limit)
  }

  /** The running target: walk speed, or run speed once already above 80% of walk speed
      in the input direction. */
  function GroundTarget(f: Fighter, h: real): real
  {
    if Abs(f.body.vx) > f.tuning.maxWalkSpeed * 0.8 && h * f.body.vx > 0.0 then h * f.tuning.maxRunSpeed
    else h * f.tuning.maxWalkSpeed
  }

  /** The new horizontal speed `apply_ground_movement` computes: toward the target by
      the ground acceleration (or by the deceleration once within 0.1 of it), and with
      no input a damped reversal until the speed is small enough to zero. */
  function GroundVelocity(f: Fighter, h: real): (v: real)
    ensures h != 0.0 && f.tuning.groundAcceleration >= 0.0 ==>
              Abs(v - f.body.vx) <= Max(f.tuning.groundAcceleration, GroundDeceleration)
    ensures h != 0.0 && f.tuning.groundAcceleration >= 0.0 && f.body.vx <= GroundTarget(f, h) ==>
              f.body.vx <= v <= GroundTarget(f, h)
    ensures h != 0.0 && f.tuning.groundAcceleration >= 0.0 && f.body.vx >= GroundTarget(f, h) ==>
              GroundTarget(f, h) <= v <= f.body.vx
    ensures h == 0.0 && Abs(f.body.vx) > 0.1 ==> v == -0.8 * f.body.vx
    ensures h == 0.0 && Abs(f.body.vx) <= 0.1 ==> v == 0.0
  {
    if h != 0.0 then
      var target := GroundTarget(f, h);
      var diff := target - f.body.vx;
      Approach(f.body.vx, target, if Abs(diff) > 0.1 then f.tuning.groundAcceleration else GroundDeceleration)
    else if Abs(f.body.vx) > 0.1 then f.body.vx * (1.0 - GroundDeceleration)
    else 0.0
  }

  /** `apply_ground_movement`: the new speed, and WALKING or RUNNING by that speed (IDLE
      once stopped from either). */
  function GroundMovement(f: Fighter, h: real): (r: Fighter)
    ensures r.body.vx == GroundVelocity(f, h)
    ensures h != 0.0 && Abs(r.body.vx) > f.tuning.maxWalkSpeed * 1.2 ==> r.status.state == Running
    ensures h != 0.0 && 0.5 < Abs(r.body.vx) <= f.tuning.maxWalkSpeed * 1.2 ==> r.status.state == Walking
    ensures h == 0.0 && Abs(f.body.vx) > 0.1 ==> r.status == f.status
    ensures h == 0.0 && Abs(f.body.vx) <= 0.1 && (f.status.state == Walking || f.status.state == Running) ==>
              r.status.state == Idle
    ensures r.status.state != f.status.state ==> FreesAction(r.status.state)
    ensures r == ChangeState(SetVx(f, r.body.vx), r.status.state)
  {
    var g := SetVx(f, GroundVelocity(f, h));
    if h != 0.0 then
      if Abs(g.body.vx) > f.tuning.maxWalkSpeed * 1.2 then ChangeState(g, Running)
      else if Abs(g.body.vx) > 0.5 then ChangeState(g, Walking)
      else g
    else if Abs(f.body.vx) > 0.1 then g
    else if g.status.state == Walking || g.status.state == Running then ChangeState(g, Idle)
    else g
  }

  /** The air target: 80% of walk speed in the input direction. */
  function AirTarget(f: Fighter, h: real): real
  {
    h * f.tuning.maxWalkSpeed * 0.8
  }

  /** `apply_air_movement`: 80% of walk speed as target, gentle drag without input. */
  function AirMovement(f: Fighter, h: real): (r: Fighter)
    ensures h != 0.0 ==> Abs(r.body.vx - f.body.vx) <= AirAcceleration
    ensures h != 0.0 && f.body.vx <= AirTarget(f, h) ==> f.body.vx <= r.body.vx <= AirTarget(f, h)
    ensures h != 0.0 && f.body.vx >= AirTarget(f, h) ==> AirTarget(f, h) <= r.body.vx <= f.body.vx
    ensures h == 0.0 && Abs(f.body.vx) > 0.1 ==> r.body.vx == 0.7 * f.body.vx
    ensures h == 0.0 && Abs(f.body.vx) <= 0.1 ==> r.body.vx == f.body.vx
    ensures r == SetVx(f, r.body.vx)
  {
    if h != 0.0 then SetVx(f, Approach(f.body.vx, AirTarget(f, h), AirAcceleration))
    else if Abs(f.body.vx) > 0.1 then SetVx(f, f.body.vx * (1.0 - AirDeceleration))
    else f
  }

  /** The jump power `handle_input` picks: a short hop when `up` is not held. The jump
      only happens on a fresh press of `up`, which is then held, so the short hop is
      never chosen. */
  function JumpPower(a: Archetype, pad: Input.Pad): (p: real)
    ensures !Input.IsPressed(pad, Input.Jump) <==> p == ShortHopStrength
    ensures Input.WasJustPressed(pad, Input.Jump) ==> p == JumpStrength(a)
  {
    if !Input.IsPressed(pad, Input.Jump) then ShortHopStrength else JumpStrength(a)
  }

  predicate JumpAllowed(f: Fighter)
  {
    f.body.onGround || f.body.coyoteTime > 0.0
  }

  /** The jump of `handle_input`, on a fresh press while grounded or in coyote time. */
  function Jump(f: Fighter, pad: Input.Pad): (r: Fighter)
    ensures !(Input.WasJustPressed(pad, Input.Jump) && JumpAllowed(f)) ==> r == f
    ensures Input.WasJustPressed(pad, Input.Jump) && JumpAllowed(f) ==>
              r.body.vy == -JumpPower(f.archetype, pad) && !r.body.onGround && !r.body.canJump &&
              r.body.coyoteTime == 0.0 && r.status.state == Jumping
    ensures r.body.coyoteTime == f.body.coyoteTime || r.body.coyoteTime == 0.0
    ensures r.status.canAct == f.status.canAct && r.status.isAttacking == f.status.isAttacking
    ensures r == f.(body := r.body, status := r.status)
  {
    if Input.WasJustPressed(pad, Input.Jump) && JumpAllowed(f) then
      ChangeState(f.(body := f.body.(vy := -JumpPower(f.archetype, pad), onGround := false, canJump := false,
                                     coyoteTime := 0.0)), Jumping)
    else f
  }

  /** Releasing `up` while rising in JUMPING halves the upward speed. */
  function JumpCut(f: Fighter, pad: Input.Pad): (r: Fighter)
    ensures r == SetVy(f, r.body.vy)
    ensures !Input.IsPressed(pad, Input.Jump) && f.body.vy < 0.0 && f.status.state == Jumping ==>
              r.body.vy == f.body.vy * 0.5
    ensures !(!Input.IsPressed(pad, Input.Jump) && f.body.vy < 0.0 && f.status.state == Jumping) ==> r == f
  {
    if !Input.IsPressed(pad, Input.Jump) && f.body.vy < 0.0 && f.status.state == Jumping then SetVy(f, f.body.vy * 0.5)
    else f
  }

  /** Crouching while `down` is held on the ground, back to IDLE when released. */
  function Crouch(f: Fighter, pad: Input.Pad): (r: Fighter)
    ensures Input.IsPressed(pad, Input.Crouch) && f.body.onGround ==> r.status.state == Crouching
    ensures !(Input.IsPressed(pad, Input.Crouch) && f.body.onGround) && f.status.state == Crouching ==>
              r.status.state == Idle
    ensures r.status.state == f.status.state ==> r == f
    ensures r == ChangeState(f, r.status.state)
  {
    if Input.IsPressed(pad, Input.Crouch) && f.body.onGround then
      (if f.status.state != Crouching then ChangeState(f, Crouching) else f)
    else if f.status.state == Crouching then ChangeState(f, Idle)
    else f
  }

  /** The facing update of `handle_input`: left then right, so right wins when both are held. */
  function Face(f: Fighter, pad: Input.Pad): (r: Fighter)
    ensures r == f.(body := f.body.(facingRight := r.body.facingRight))
    ensures Input.IsPressed(pad, Input.MoveRight) ==> r.body.facingRight
    ensures Input.IsPressed(pad, Input.MoveLeft) && !Input.IsPressed(pad, Input.MoveRight) ==> !r.body.facingRight
    ensures !Input.IsPressed(pad, Input.MoveLeft) && !Input.IsPressed(pad, Input.MoveRight) ==>
              r.body.facingRight == f.body.facingRight
  {
    if Input.IsPressed(pad, Input.MoveRight) then f.(body := f.body.(facingRight := true))
    else if Input.IsPressed(pad, Input.MoveLeft) then f.(body := f.body.(facingRight := false))
    else f
  }

  function HorizontalInput(pad: Input.Pad): real
  {
    Input.KeyAxis(Input.IsPressed(pad, Input.MoveLeft), Input.IsPressed(pad, Input.MoveRight))
  }

  /** Movement, jump, jump cut and crouch: `handle_input` up to the attack request. */
  function Move(f: Fighter, pad: Input.Pad): (r: Fighter)
  {
    var f1 := Face(f, pad);
    var h := HorizontalInput(pad);
    var f2 := if f1.body.onGround then GroundMovement(f1, h) else AirMovement(f1, h);
    Crouch(JumpCut(Jump(f2, pad), pad), pad)
  }

  /** `handle_input`. */
  function HandleInput(f: Fighter, pad: Input.Pad): (r: Result<Fighter>)
    ensures !Input.WasJustPressed(pad, Input.Attack) ==> r == Ok(Move(f, pad))
    ensures Input.WasJustPressed(pad, Input.Attack) ==> r == PerformAttack(Move(f, pad), Input.AttackDirectionOf(pad))
  {
    var g := Move(f, pad);
    if Input.WasJustPressed(pad, Input.Attack) then PerformAttack(g, Input.AttackDirectionOf(pad)) else Ok(g)
  }

  // ---------------------------------------------------------------- attacks

  /** Specials an archetype refuses because their cooldown is running. The refusal
      comes after the fighter is locked. */
  predicate CooldownRejects(f: Fighter, d: Input.AttackDirection)
  {
    (f.archetype == Speedster &&
       ((d.Side? && f.speedster.sideAttackCooldown > 0) || (d.SideSpecial? && f.speedster.sideSpecialCooldown > 0) ||
        (d.Up? && f.upSpecialCooldown > 0))) ||
    (f.archetype == Heavy && d.Up? && f.upSpecialCooldown > 0)
  }

  /** The first half of every `perform_attack`. */
  function Lock(f: Fighter): (r: Fighter)
    ensures r.status.isAttacking && !r.status.canAct && r.status.attackFrames == 0
    ensures r == f.(status := r.status)
    ensures r.status == f.status.(isAttacking := r.status.isAttacking, attackFrames := r.status.attackFrames,
                                  canAct := r.status.canAct)
  {
    f.(status := f.status.(isAttacking := true, attackFrames := 0, canAct := false))
  }

  /** Enters the direction's attack state and loads its descriptor, when the branch exists. */
  function LoadMove(f: Fighter, d: Input.AttackDirection): (r: Fighter)
    ensures HasBranch(f.archetype, d) ==>
              r.status.state == AttackState(d) && r.currentAttack == Some(Descriptor(f.archetype, d))
    ensures !HasBranch(f.archetype, d) ==> r == f
    ensures r == ChangeState(f, r.status.state).(currentAttack := r.currentAttack)
    ensures r.status.isAttacking == f.status.isAttacking && r.status.canAct == f.status.canAct &&
            r.status.attackFrames == f.status.attackFrames && r.body == f.body
  {
    if HasBranch(f.archetype, d) then
      ChangeState(f, AttackState(d)).(currentAttack := Some(Descriptor(f.archetype, d)))
    else f
  }

  function ActivateSuperArmor(f: Fighter, frames: int): (r: Fighter)
    ensures r == f.(heavy := f.heavy.(hasSuperArmor := true, armorTimer := frames))
  {
    f.(heavy := f.heavy.(hasSuperArmor := true, armorTimer := frames))
  }

  /** `perform_attack` of the Speedster after the lock. */
  function SpeedsterMove(locked: Fighter, d: Input.AttackDirection): Fighter
  {
    var g := LoadMove(locked, d);
    var g2 := if d.SideSpecial? then
                g.(body := g.body.(vx := Facing(g.body.facingRight, SideSpecialBurst)),
                   speedster := g.speedster.(sideSpecialCooldown := SideSpecialCooldownFrames))
              else if d.Up? then
                g.(speedster := g.speedster.(isFlyingUp := true, flightTimer := FlightFrames),
                   upSpecialCooldown := UpSpecialCooldownFrames)
              else g;
    g2.(hitboxCreated := false)
  }

  /** The Heavy's up special leaves the ground at 1.2 times its jump strength, pounding. */
  function PoundLaunch(f: Fighter): Fighter
  {
    f.(body := f.body.(vy := -JumpStrength(Heavy) * 1.2, onGround := false),
       heavy := f.heavy.(isGroundPounding := true))
  }

  /** The loaded descriptor is kept for the landing, and the up special's cooldown starts. */
  function StorePound(f: Fighter): Fighter
  {
    f.(heavy := f.heavy.(groundPoundData := f.currentAttack), upSpecialCooldown := UpSpecialCooldownFrames)
  }

  /** `perform_attack` of the Heavy after the lock. An unbranched direction reads the
      armor key of whatever descriptor is loaded, which fails when there is none. */
  function HeavyMove(locked: Fighter, d: Input.AttackDirection): Result<Fighter>
  {
    var g := if d.Up? then PoundLaunch(locked) else locked;
    var g1 := LoadMove(g, d);
    var g2 := if d.Up? then StorePound(g1) else g1;
    if g2.currentAttack.None? then Err(NoAttackLoaded)
    else
      var atk := g2.currentAttack.value;
      var g3 := if atk.armorFrames.Some? then ActivateSuperArmor(g2, atk.armorFrames.value) else g2;
      Ok(g3.(hitboxCreated := false))
  }

  /** `perform_attack` of each archetype. */
  function PerformAttack(f: Fighter, d: Input.AttackDirection): (r: Result<Fighter>)
    ensures !f.status.canAct || f.status.isAttacking ==> r == Ok(f)
    ensures r.Err? <==> f.status.canAct && !f.status.isAttacking && f.archetype == Heavy &&
                        !HasBranch(Heavy, d) && f.currentAttack.None?
    ensures f.status.canAct && !f.status.isAttacking && r.Ok? ==>
              r.value.status.isAttacking && !r.value.status.canAct && r.value.status.attackFrames == 0
    ensures f.status.canAct && !f.status.isAttacking && r.Ok? ==>
              r.value.currentAttack == if HasBranch(f.archetype, d) && !CooldownRejects(f, d)
                                       then Some(Descriptor(f.archetype, d)) else f.currentAttack
    ensures f.status.canAct && !f.status.isAttacking && HasBranch(f.archetype, d) && !CooldownRejects(f, d) ==>
              r.Ok? && r.value.status.state == AttackState(d) && !r.value.hitboxCreated
    ensures f.status.canAct && !f.status.isAttacking && CooldownRejects(f, d) ==> r == Ok(Lock(f))
  {
    if !f.status.canAct || f.status.isAttacking then Ok(f)
    else
      var locked := Lock(f);
      match f.archetype
      case Generic => Ok(LoadMove(locked, d).(hitboxCreated := false))
      case Warrior =>
        var g := if d.Side? then SetVx(locked, 0.0) else locked;
        Ok(LoadMove(g, d).(hitboxCreated := false))
      case Speedster => if CooldownRejects(f, d) then Ok(locked) else Ok(SpeedsterMove(locked, d))
      case Heavy => if CooldownRejects(f, d) then Ok(locked) else HeavyMove(locked, d)
  }

  // ---------------------------------------------------------------- buffs and stances

  function ApplySpeedBoost(f: Fighter, atk: Attack): (r: Fighter)
    ensures f.speedster.boostActive ==> r == f
    ensures !f.speedster.boostActive ==>
              r.speedster.boostActive && r.speedster.boostTimer == atk.buffDuration &&
              r.tuning == BoostedTuning(f.archetype)
  {
    if !f.speedster.boostActive then
      f.(speedster := f.speedster.(boostActive := true, boostTimer := atk.buffDuration),
         tuning := BoostedTuning(f.archetype))
    else f
  }

  function EndSpeedBoost(f: Fighter): (r: Fighter)
    ensures !r.speedster.boostActive && r.tuning == BaseTuning(f.archetype)
  {
    f.(speedster := f.speedster.(boostActive := false), tuning := BaseTuning(f.archetype))
  }

  function ApplyArmorStance(f: Fighter, atk: Attack): (r: Fighter)
    ensures r.heavy.powerStanceActive && r.heavy.hasSuperArmor && r.heavy.damageMultiplier == 0.5
    ensures r.heavy.powerStanceTimer == atk.stanceDuration && r.heavy.armorTimer == atk.stanceDuration
    ensures r == f.(heavy := r.heavy)
  {
    f.(heavy := f.heavy.(powerStanceActive := true, powerStanceTimer := atk.stanceDuration, damageMultiplier := 0.5,
                         hasSuperArmor := true, armorTimer := atk.stanceDuration))
  }

  function EndPowerStance(f: Fighter): (r: Fighter)
    ensures !r.heavy.powerStanceActive && !r.heavy.hasSuperArmor && r.heavy.damageMultiplier == 1.0
    ensures r == f.(heavy := r.heavy)
  {
    f.(heavy := f.heavy.(powerStanceActive := false, damageMultiplier := 1.0, hasSuperArmor := false))
  }

  // ---------------------------------------------------------------- attack phases

  function AppendBox(f: Fighter, b: Hitbox): Fighter { f.(hitboxes := f.hitboxes + [b]) }

  /** The archetype's `create_attack_hitbox`: appends the attack's box, or applies the
      buff or stance instead; the Heavy's hammer slam only marks its box as created. */
  function CreateAttackHitbox(f: Fighter): (r: Fighter)
    ensures r.status == f.status && r.body == f.body && r.currentAttack == f.currentAttack
    ensures r.archetype == f.archetype && r.heavy.isGroundPounding == f.heavy.isGroundPounding
  {
    match f.currentAttack
    case None => f
    case Some(atk) =>
      var (x, y, right) := (f.body.x, f.body.y, f.body.facingRight);
      match f.archetype
      case Generic => AppendBox(f, BasicHitbox(atk, x, y, right))
      case Warrior =>
        if atk.kind == EnergyProjectile then AppendBox(f, WarriorProjectile(atk, x, y, right))
        else AppendBox(f, WarriorMelee(atk, x, y, right))
      case Speedster =>
        if atk.kind == SpeedBoost then ApplySpeedBoost(f, atk)
        else AppendBox(f, SpeedsterHitbox(atk, x, y, right))
      case Heavy =>
        if atk.kind == ArmorStance then ApplyArmorStance(f, atk)
        else if atk.kind == HammerSlam then f.(hitboxCreated := true)
        else AppendBox(f, HeavyHitbox(atk, x, y, right))
  }

  /** `Character.end_attack`: unlocks and returns to IDLE or FALLING. */
  function BaseEndAttack(f: Fighter): (r: Fighter)
    ensures !r.status.isAttacking && r.status.canAct && r.currentAttack.None? && !r.hitboxCreated
    ensures f.body.onGround ==> r.status.state == Idle && r.body == f.body
    ensures !f.body.onGround ==> r.status.state == Falling && r.body == f.body
    ensures r == f.(status := r.status, currentAttack := None, hitboxCreated := false)
  {
    var g := f.(status := f.status.(isAttacking := false, canAct := true), currentAttack := None, hitboxCreated := false);
    if g.body.onGround then ChangeState(g, Idle) else ChangeState(g, Falling)
  }

  /** `end_attack` with the Heavy's override: nothing happens while a ground pound waits
      to land. */
  function EndAttack(f: Fighter): (r: Fighter)
    ensures f.archetype == Heavy && f.heavy.isGroundPounding ==> r == f
    ensures !(f.archetype == Heavy && f.heavy.isGroundPounding) ==> r == BaseEndAttack(f)
  {
    if f.archetype == Heavy && f.heavy.isGroundPounding then f else BaseEndAttack(f)
  }

  /** `update_attack_timing`, run after the frame counter moved: startup does nothing,
      the first active frame spawns the hitbox, the end of recovery ends the attack. */
  function AttackTiming(f: Fighter): Fighter
  {
    match f.currentAttack
    case None => f
    case Some(atk) =>
      if f.status.attackFrames < atk.startup then f
      else if f.status.attackFrames < atk.startup + atk.active then
        (if !f.hitboxCreated then CreateAttackHitbox(f).(hitboxCreated := true) else f)
      else if f.status.attackFrames >= atk.startup + atk.active + atk.recovery then EndAttack(f)
      else f
  }

  predicate InActiveWindow(f: Fighter)
    requires f.currentAttack.Some?
  {
    f.currentAttack.value.startup <= f.status.attackFrames < f.currentAttack.value.startup + f.currentAttack.value.active
  }

  predicate RecoveryOver(f: Fighter)
    requires f.currentAttack.Some?
  {
    var atk := f.currentAttack.value;
    f.status.attackFrames >= atk.startup + atk.active + atk.recovery
  }

  /** The epilogue of `update`: an attacking fighter counts one more frame and runs the
      phase logic. */
  function AttackStep(f: Fighter): (r: Fighter)
    ensures !f.status.isAttacking ==> r == f
    ensures f.status.isAttacking && r.status.isAttacking ==> r.status.attackFrames == f.status.attackFrames + 1
  {
    if f.status.isAttacking then AttackTiming(f.(status := f.status.(attackFrames := f.status.attackFrames + 1))) else f
  }

  // ---------------------------------------------------------------- per-tick logic

  /** `update_physics`: coyote time runs out in the air; a grounded FALLING fighter lands. */
  function UpdatePhysics(f: Fighter, dt: real): (r: Fighter)
    ensures f.body.onGround && f.status.state == Falling ==>
              r.status.state == Landing && !r.status.canAct && r.body.canJump
    ensures f.body.coyoteTime <= 0.0 ==> r.body.coyoteTime == f.body.coyoteTime
    ensures r.body.coyoteTime >= 0.0 || r.body.coyoteTime == f.body.coyoteTime
    ensures r == f.(body := r.body, status := r.status)
  {
    var f1 := if !f.body.onGround && f.body.coyoteTime > 0.0 then
                (var c := f.body.coyoteTime - dt; f.(body := f.body.(coyoteTime := if c <= 0.0 then 0.0 else c)))
              else f;
    if f1.body.onGround && f1.status.state == Falling then
      var g := ChangeState(f1, Landing);
      g.(body := g.body.(canJump := true))
    else f1
  }

  /** `update_state_machine`: LANDING ends after 0.2 s, JUMPING turns to FALLING once
      descending, HIT_STUN ends when its timer is out. */
  function UpdateStateMachine(f: Fighter): (r: Fighter)
    ensures f.status.state == Landing && f.status.stateTimer > LandingLag ==>
              r.status.state == Idle && r.status.canAct
    ensures f.status.state == Jumping && f.body.vy > 0.0 ==> r.status.state == Falling
    ensures f.status.state == HitStun && f.status.hitStunTimer <= 0.0 ==>
              r.status.canAct && (r.status.state == Idle || r.status.state == Falling)
    ensures f.status.state == HitStun && f.status.hitStunTimer > 0.0 ==> r == f
    ensures r == f.(body := r.body, status := r.status) && r.body == f.body.(onGround := r.body.onGround)
  {
    var f1 := if f.status.state == Landing && f.status.stateTimer > LandingLag then
                var g := ChangeState(f, Idle); g.(status := g.status.(canAct := true))
              else f;
    var f2 := if f1.status.state == Jumping && f1.body.vy > 0.0 then ChangeState(f1, Falling) else f1;
    if f2.status.state == HitStun && f2.status.hitStunTimer <= 0.0 then
      var g := f2.(status := f2.status.(canAct := true));
      if g.body.onGround then ChangeState(g, Idle) else ChangeState(g, Falling)
    else f2
  }

  /** Input is read only when the fighter can act and is out of hitstun. */
  predicate AcceptsInput(f: Fighter)
  {
    f.status.canAct && f.status.hitStunTimer <= 0.0
  }

  /** `Character.update`. */
  function BaseUpdate(f: Fighter, pad: Input.Pad, dt: real): (r: Result<Fighter>)
  {
    var f1 := TickTimers(f, dt);
    var f2 :- if AcceptsInput(f1) then HandleInput(f1, pad) else Ok(f1);
    Ok(AttackStep(UpdateStateMachine(UpdatePhysics(f2, dt))))
  }

  // ---------------------------------------------------------------- archetype extras

  /** `update_multihit_attacks` on one box: a due multi-hit box records the frame. */
  function RefreshMultihit(b: Hitbox, frame: int): (r: Hitbox)
    ensures r == b.(lastHitFrame := r.lastHitFrame)
    ensures r.isMultihit && r.hitInterval >= 1 ==> frame - r.lastHitFrame < r.hitInterval
  {
    if b.isMultihit && frame - b.lastHitFrame >= b.hitInterval then b.(lastHitFrame := frame) else b
  }

  /** `update_multihit_attacks` over the fighter's list. */
  function UpdateMultihit(f: Fighter): (r: Fighter)
    ensures r == f.(hitboxes := r.hitboxes) && |r.hitboxes| == |f.hitboxes|
    ensures forall i :: 0 <= i < |r.hitboxes| ==> r.hitboxes[i] == RefreshMultihit(f.hitboxes[i], f.status.attackFrames)
  {
    f.(hitboxes := seq(|f.hitboxes|, i requires 0 <= i < |f.hitboxes| =>
                         RefreshMultihit(f.hitboxes[i], f.status.attackFrames)))
  }

  /** One projectile step: move by the velocity, lose one frame of lifetime. */
  function ProjectileStep(b: Hitbox): (r: Hitbox)
    ensures r == b.(x := b.x + b.vx, y := b.y + b.vy, lifetime := b.lifetime - 1)
  {
    b.(x := b.x + b.vx, y := b.y + b.vy, lifetime := b.lifetime - 1)
  }

  /** The Warrior's own removal test (the resolver's adds `y > 800`). */
  predicate WarriorProjectileGone(b: Hitbox)
  {
    b.lifetime <= 0 || b.x < -100.0 || b.x > 1380.0
  }

  /** How many entries a removal keeps: the unflagged ones. */
  function Survivors(drop: seq<bool>): (n: nat)
    ensures n <= |drop|
  {
    if |drop| == 0 then 0 else Survivors(drop[..|drop| - 1]) + (if drop[|drop| - 1] then 0 else 1)
  }

  /** Entry `i` of `boxes`, unless flagged, is entry `Survivors(drop[..i])` of `r`. */
  predicate KeptAt(boxes: seq<Hitbox>, drop: seq<bool>, r: seq<Hitbox>)
    requires |drop| == |boxes|
  {
    forall i :: 0 <= i < |boxes| && !drop[i] ==> Survivors(drop[..i]) < |r| && r[Survivors(drop[..i])] == boxes[i]
  }

  /** The list with the flagged entries removed, order kept: it holds exactly the
      unflagged entries, each at the position given by the survivors before it. */
  function Kept(boxes: seq<Hitbox>, drop: seq<bool>): (r: seq<Hitbox>)
    requires |drop| == |boxes|
    ensures |r| == Survivors(drop) && |r| <= |boxes|
    ensures KeptAt(boxes, drop, r)
    ensures forall b :: b in r ==> b in boxes
    decreases |boxes|
  {
    if |boxes| == 0 then []
    else
      var last := |boxes| - 1;
      var init := Kept(boxes[..last], drop[..last]);
      KeptExtends(boxes, drop, init);
      init + (if drop[last] then [] else [boxes[last]])
  }

  /** One more entry at the end extends the removal by that entry, unless flagged. */
  lemma KeptExtends(boxes: seq<Hitbox>, drop: seq<bool>, init: seq<Hitbox>)
    requires |drop| == |boxes| > 0
    requires |init| == Survivors(drop[..|drop| - 1]) && KeptAt(boxes[..|boxes| - 1], drop[..|drop| - 1], init)
    ensures var r := init + (if drop[|drop| - 1] then [] else [boxes[|boxes| - 1]]);
            |r| == Survivors(drop) && KeptAt(boxes, drop, r)
  {
    var last := |boxes| - 1;
    var r := init + (if drop[last] then [] else [boxes[last]]);
    forall i | 0 <= i < |boxes| && !drop[i]
      ensures Survivors(drop[..i]) < |r| && r[Survivors(drop[..i])] == boxes[i]
    {
      if i < last {
        assert drop[..last][..i] == drop[..i];
        assert boxes[..last][i] == boxes[i];
      } else {
        assert drop[..i] == drop[..last];
      }
    }
  }

  /** The first pass of `update_projectiles`: every projectile moves one step. */
  function StepProjectiles(boxes: seq<Hitbox>): (r: seq<Hitbox>)
    ensures |r| == |boxes|
    ensures forall i :: 0 <= i < |boxes| ==> r[i] == if boxes[i].isProjectile then ProjectileStep(boxes[i]) else boxes[i]
  {
    seq(|boxes|, i requires 0 <= i < |boxes| => if boxes[i].isProjectile then ProjectileStep(boxes[i]) else boxes[i])
  }

  /** Which entries `update_projectiles` removes, judged after the step. */
  function ExpiredProjectiles(boxes: seq<Hitbox>): (r: seq<bool>)
    ensures |r| == |boxes|
    ensures forall i :: 0 <= i < |boxes| ==> (r[i] <==> boxes[i].isProjectile && WarriorProjectileGone(ProjectileStep(boxes[i])))
  {
    seq(|boxes|, i requires 0 <= i < |boxes| => boxes[i].isProjectile && WarriorProjectileGone(ProjectileStep(boxes[i])))
  }

  /** `update_projectiles`: melee boxes stay, every projectile moves one step and stays
      unless that step spent it or took it off screen. */
  function UpdateProjectiles(f: Fighter): (r: Fighter)
    ensures r == f.(hitboxes := r.hitboxes) && |r.hitboxes| <= |f.hitboxes|
    ensures forall i :: 0 <= i < |f.hitboxes| && !f.hitboxes[i].isProjectile ==> f.hitboxes[i] in r.hitboxes
    ensures forall i :: 0 <= i < |f.hitboxes| && f.hitboxes[i].isProjectile &&
                        !WarriorProjectileGone(ProjectileStep(f.hitboxes[i])) ==>
                          ProjectileStep(f.hitboxes[i]) in r.hitboxes
    ensures forall b :: b in r.hitboxes && !b.isProjectile ==> b in f.hitboxes
  {
    ProjectilePassFacts(f.hitboxes);
    f.(hitboxes := Kept(StepProjectiles(f.hitboxes), ExpiredProjectiles(f.hitboxes)))
  }

  /** Which boxes the step-and-remove pass keeps, and in what form. */
  lemma ProjectilePassFacts(boxes: seq<Hitbox>)
    ensures var r := Kept(StepProjectiles(boxes), ExpiredProjectiles(boxes));
            (forall i :: 0 <= i < |boxes| && !boxes[i].isProjectile ==> boxes[i] in r) &&
            (forall i :: 0 <= i < |boxes| && boxes[i].isProjectile && !WarriorProjectileGone(ProjectileStep(boxes[i])) ==>
                           ProjectileStep(boxes[i]) in r) &&
            (forall b :: b in r && !b.isProjectile ==> b in boxes)
  {
    var stepped := StepProjectiles(boxes);
    var drop := ExpiredProjectiles(boxes);
    var kept := Kept(stepped, drop);
    forall i | 0 <= i < |boxes| && !drop[i]
      ensures stepped[i] in kept
    {
      assert kept[Survivors(drop[..i])] == stepped[i];
    }
    forall b | b in kept && !b.isProjectile
      ensures b in boxes
    {
      var j :| 0 <= j < |stepped| && stepped[j] == b;
      assert boxes[j] == b;
    }
  }

  /** The Speedster's prologue: cooldowns, flight, dash friction and the buff timer. */
  function SpeedsterPrologue(f: Fighter, pad: Input.Pad): Fighter
  {
    BoostTick(DashFriction(Flight(SpeedsterCooldownTick(f), pad)))
  }

  function SpeedsterCooldownTick(f: Fighter): (r: Fighter)
    ensures r == f.(upSpecialCooldown := r.upSpecialCooldown, speedster := r.speedster)
    ensures r.speedster == f.speedster.(sideAttackCooldown := r.speedster.sideAttackCooldown,
                                        sideSpecialCooldown := r.speedster.sideSpecialCooldown)
  {
    f.(upSpecialCooldown := Countdown(f.upSpecialCooldown),
       speedster := f.speedster.(sideAttackCooldown := Countdown(f.speedster.sideAttackCooldown),
                                 sideSpecialCooldown := Countdown(f.speedster.sideSpecialCooldown)))
  }

  /** Flight: rising at the air speed while `attack` is held and time is left, otherwise
      the flight and the attack end. */
  function Flight(f: Fighter, pad: Input.Pad): Fighter
  {
    if f.speedster.isFlyingUp then
      (if Input.IsPressed(pad, Input.Attack) && f.speedster.flightTimer > 0 then
         ChangeState(f.(body := f.body.(vy := -SpeedsterAirSpeed, onGround := false),
                        speedster := f.speedster.(flightTimer := f.speedster.flightTimer - 1)), UpSpecial)
       else EndAttack(f.(speedster := f.speedster.(isFlyingUp := false))))
    else f
  }

  /** A dash attack slows by 15% a frame and stops below 1. */
  function DashFriction(f: Fighter): (r: Fighter)
    ensures r == f.(body := f.body.(vx := r.body.vx))
    ensures !(f.status.isAttacking && f.currentAttack.Some? && f.currentAttack.value.kind == DashAttack) ==> r == f
    ensures f.status.isAttacking && f.currentAttack.Some? && f.currentAttack.value.kind == DashAttack ==>
              (Abs(f.body.vx) * 0.85 < 1.0 ==> r.body.vx == 0.0) &&
              (Abs(f.body.vx) * 0.85 >= 1.0 ==> r.body.vx == f.body.vx * 0.85)
    ensures Abs(r.body.vx) <= Abs(f.body.vx)
  {
    if f.status.isAttacking && f.currentAttack.Some? && f.currentAttack.value.kind == DashAttack then
      (var v := f.body.vx * 0.85; SetVx(f, if Abs(v) < 1.0 then 0.0 else v))
    else f
  }

  /** The speed buff counts down and is removed when it runs out. */
  function BoostTick(f: Fighter): (r: Fighter)
    ensures r == f.(speedster := r.speedster, tuning := r.tuning)
    ensures r.speedster == f.speedster.(boostActive := r.speedster.boostActive, boostTimer := r.speedster.boostTimer)
    ensures !f.speedster.boostActive ==> r == f
    ensures f.speedster.boostActive ==>
              r.speedster.boostTimer == f.speedster.boostTimer - 1 &&
              (r.speedster.boostActive <==> f.speedster.boostTimer > 1) &&
              (r.speedster.boostActive ==> r.tuning == f.tuning) &&
              (!r.speedster.boostActive ==> r.tuning == BaseTuning(f.archetype))
  {
    if f.speedster.boostActive then
      var g := f.(speedster := f.speedster.(boostTimer := f.speedster.boostTimer - 1));
      if g.speedster.boostTimer <= 0 then EndSpeedBoost(g) else g
    else f
  }

  function CreateGroundPoundHitbox(f: Fighter): (r: Fighter)
    ensures f.heavy.groundPoundData.None? ==> r == f
    ensures f.heavy.groundPoundData.Some? ==>
              r == AppendBox(f, Shockwave(f.heavy.groundPoundData.value, f.body.x, f.body.y))
                     .(heavy := f.heavy.(groundPoundData := None))
  {
    match f.heavy.groundPoundData
    case None => f
    case Some(data) => AppendBox(f, Shockwave(data, f.body.x, f.body.y)).(heavy := f.heavy.(groundPoundData := None))
  }

  /** The Heavy's timers: the up-special cooldown, the armor (dropped when its timer
      reaches 0) and the power stance. */
  function HeavyTimers(f: Fighter): (r: Fighter)
    ensures r.upSpecialCooldown == Countdown(f.upSpecialCooldown)
    ensures f.heavy.hasSuperArmor && f.heavy.armorTimer > 0 ==> r.heavy.armorTimer == f.heavy.armorTimer - 1
    ensures f.heavy.powerStanceActive && f.heavy.powerStanceTimer > 0 ==>
              r.heavy.powerStanceTimer == f.heavy.powerStanceTimer - 1 &&
              (r.heavy.powerStanceActive <==> f.heavy.powerStanceTimer > 1)
    ensures !f.heavy.powerStanceActive && f.heavy.hasSuperArmor && f.heavy.armorTimer > 0 ==>
              (r.heavy.hasSuperArmor <==> f.heavy.armorTimer > 1)
    ensures r == f.(upSpecialCooldown := r.upSpecialCooldown, heavy := r.heavy)
    ensures r.heavy.isGroundPounding == f.heavy.isGroundPounding && r.heavy.groundPoundData == f.heavy.groundPoundData
  {
    var f1 := f.(upSpecialCooldown := Countdown(f.upSpecialCooldown));
    var f2 := if f1.heavy.hasSuperArmor && f1.heavy.armorTimer > 0 then
                f1.(heavy := f1.heavy.(armorTimer := f1.heavy.armorTimer - 1, hasSuperArmor := f1.heavy.armorTimer - 1 > 0))
              else f1;
    if f2.heavy.powerStanceActive && f2.heavy.powerStanceTimer > 0 then
      var g := f2.(heavy := f2.heavy.(powerStanceTimer := f2.heavy.powerStanceTimer - 1));
      if g.heavy.powerStanceTimer <= 0 then EndPowerStance(g) else g
    else f2
  }

  /** A pounding Heavy on the ground spawns the shockwave and ends the attack. */
  function LandGroundPound(f: Fighter): (r: Fighter)
    ensures !(f.heavy.isGroundPounding && f.body.onGround) ==> r == f
    ensures f.heavy.isGroundPounding && f.body.onGround ==>
              !r.heavy.isGroundPounding && r.heavy.groundPoundData.None? && r == BaseEndAttack(r) &&
              r.hitboxes == CreateGroundPoundHitbox(f).hitboxes
  {
    if f.heavy.isGroundPounding && f.body.onGround then
      var g := CreateGroundPoundHitbox(f);
      EndAttack(g.(heavy := g.heavy.(isGroundPounding := false)))
    else f
  }

  /** Horizontal axis beyond 0.5 against the facing direction. */
  predicate SlamCancelled(f: Fighter, pad: Input.Pad)
  {
    (f.body.facingRight && pad.horizontalAxis < -0.5) || (!f.body.facingRight && pad.horizontalAxis > 0.5)
  }

  predicate InBodySlam(f: Fighter)
  {
    f.status.isAttacking && f.currentAttack.Some? && f.currentAttack.value.isBodySlam
  }

  /** The body-slam slide: 9 in the facing direction, or a stop and the end of the attack
      when the stick points back. */
  function SlideBodySlam(f: Fighter, pad: Input.Pad): (r: Fighter)
    ensures !InBodySlam(f) ==> r == f
    ensures InBodySlam(f) && !SlamCancelled(f, pad) ==> r == SetVx(f, Facing(f.body.facingRight, BodySlamSpeed))
    ensures InBodySlam(f) && SlamCancelled(f, pad) ==> r == EndAttack(SetVx(f, 0.0))
  {
    if InBodySlam(f) then
      var g := SetVx(f, Facing(f.body.facingRight, BodySlamSpeed));
      if SlamCancelled(g, pad) then EndAttack(SetVx(g, 0.0)) else g
    else f
  }

  /** The Heavy's prologue to the shared update. */
  function HeavyPrologue(f: Fighter, pad: Input.Pad): Fighter
  {
    SlideBodySlam(LandGroundPound(HeavyTimers(f)), pad)
  }

  /** `update` of each archetype. */
  function Update(f: Fighter, pad: Input.Pad, dt: real): (r: Result<Fighter>)
  {
    match f.archetype
    case Generic => BaseUpdate(f, pad, dt)
    case Warrior =>
      var g :- BaseUpdate(f, pad, dt);
      Ok(UpdateProjectiles(g))
    case Speedster =>
      var g :- BaseUpdate(SpeedsterPrologue(f, pad), pad, dt);
      Ok(UpdateMultihit(g))
    case Heavy => BaseUpdate(HeavyPrologue(f, pad), pad, dt)
  }

  // ---------------------------------------------------------------- damage

  /** Knockback scale at percent `dp`: 1 + dp/70, plus ((dp-80)/50)^1.5 above 100%. */
  function KnockbackScale(dp: real, num: Numerics): real
  {
    1.0 + dp / 70.0 + (if dp > 100.0 then num.pow15((dp - 80.0) / 50.0) else 0.0)
  }

  predicate Invincible(f: Fighter)
  {
    f.status.invincibilityTimer > 0.0 || f.status.respawnInvincibility > 0
  }

  /** `Character.take_damage`. */
  function BaseTakeDamage(f: Fighter, damage: real, kbx: real, kby: real, num: Numerics): (r: Fighter)
    ensures Invincible(f) ==> r == f
    ensures !Invincible(f) ==> r.damagePercent == f.damagePercent + damage
    ensures !Invincible(f) ==> r.status.invincibilityTimer == HitInvincibility && !r.status.canAct &&
                               r.status.state == HitStun
    ensures r == f.(body := r.body, status := r.status, damagePercent := r.damagePercent)
  {
    if Invincible(f) then f else ChangeState(Hit(f, damage, kbx, kby, num), HitStun)
  }

  /** One component of the launch: the knockback scaled by the percent curve and divided
      by the weight. */
  function Launch(k: real, m: real, a: Archetype): real
  {
    k * m / Weight(a)
  }

  /** The part of `take_damage` before the state change: percent, launch and hitstun. */
  function Hit(f: Fighter, damage: real, kbx: real, kby: real, num: Numerics): (r: Fighter)
    ensures r == f.(body := r.body, status := r.status, damagePercent := r.damagePercent)
    ensures r.body == f.body.(vx := r.body.vx, vy := r.body.vy)
  {
    var dp := f.damagePercent + damage;
    var m := KnockbackScale(dp, num);
    f.(damagePercent := dp,
       body := f.body.(vx := f.body.vx + Launch(kbx, m, f.archetype),
                       vy := f.body.vy + Launch(kby, m, f.archetype)),
       status := f.status.(hitStunTimer := (damage + dp * 0.02) * 0.01, canAct := false,
                           invincibilityTimer := HitInvincibility))
  }

  /** `take_damage` with the Heavy's override: under super armor only the percent grows,
      scaled by the stance multiplier, and invincibility is not consulted. */
  function TakeDamage(f: Fighter, damage: real, kbx: real, kby: real, num: Numerics): (r: Fighter)
    ensures f.archetype == Heavy && f.heavy.hasSuperArmor ==>
              r == f.(damagePercent := f.damagePercent + damage * f.heavy.damageMultiplier)
    ensures !(f.archetype == Heavy && f.heavy.hasSuperArmor) ==> r == BaseTakeDamage(f, damage, kbx, kby, num)
  {
    if f.archetype == Heavy && f.heavy.hasSuperArmor then
      f.(damagePercent := f.damagePercent + damage * f.heavy.damageMultiplier)
    else BaseTakeDamage(f, damage, kbx, kby, num)
  }

  /** `lose_life`. */
  function LoseLife(f: Fighter): (r: Fighter)
    ensures r == f.(lives := f.lives - 1, damagePercent := 0.0)
  {
    f.(lives := f.lives - 1, damagePercent := 0.0)
  }

  /** `get_collision_rect`: the body box stands on the position, centred horizontally. */
  function CollisionRect(f: Fighter): (r: Rect)
    ensures r.width == Width && r.height == Height
    ensures r == RectAt(f.body.x - 30.0, f.body.y - 80.0, Width, Height)
  {
    RectAt(f.body.x - (Width / 2) as real, f.body.y - Height as real, Width, Height)
  }
}
