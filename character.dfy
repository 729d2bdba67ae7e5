/** The `Character` object and its three subclasses as one class whose methods update
    its fields in place, in the order the source does. Each method is proved against the
    value-level definition in `Fighters`, whose properties `FighterFacts` proves. */
module Characters {
  import opened Common
  import opened Geometry
  import opened Moves
  import opened Fighters
  import Input

  class Character {
    const archetype: Archetype
    const playerId: int
    var body: Body
    var tuning: Tuning
    var lives: int
    var damagePercent: real
    var status: Status
    var hitboxes: seq<Hitbox>
    var currentAttack: Option<Attack>
    var hitboxCreated: bool
    var upSpecialCooldown: int
    var speedster: SpeedsterKit
    var heavy: HeavyKit

    /** The fields as one value. */
    function View(): Fighter
      reads this
    {
      Fighter(archetype, playerId, body, tuning, lives, damagePercent, status, hitboxes, currentAttack,
              hitboxCreated, upSpecialCooldown, speedster, heavy)
    }

    constructor (a: Archetype, x: real, y: real, id: int)
      ensures View() == NewFighter(a, x, y, id)
    {
      archetype := a;
      playerId := id;
      body := Body(x, y, 0.0, 0.0, id == 1, true, true, 0.0);
      tuning := BaseTuning(a);
      lives := 3;
      damagePercent := 0.0;
      status := Status(Idle, Idle, 0.0, true, false, 0, 0.0, 0.0, 0);
      hitboxes := [];
      currentAttack := None;
      hitboxCreated := false;
      upSpecialCooldown := 0;
      speedster := SpeedsterKit(false, 0, false, 0, 0, 0);
      heavy := HeavyKit(false, 0, false, 0, 1.0, false, None);
    }

    /** `change_state`. */
    method ChangeState(s: CharState)
      modifies this
      ensures View() == Fighters.ChangeState(old(View()), s)
    {
      if s != status.state {
        status := status.(previousState := status.state, state := s, stateTimer := 0.0);
        if s == Landing {
          status := status.(canAct := false);
        } else if FreesAction(s) {
          status := status.(canAct := true, isAttacking := false, attackFrames := 0);
        } else if s == Falling {
          body := body.(onGround := false);
        }
      }
    }

    /** The timer prologue of `update`. */
    method TickTimers(dt: real)
      modifies this
      ensures View() == Fighters.TickTimers(old(View()), dt)
    {
      status := status.(stateTimer := status.stateTimer + dt);
      status := status.(hitStunTimer := Max(0.0, status.hitStunTimer - dt));
      status := status.(invincibilityTimer := Max(0.0, status.invincibilityTimer - dt));
      body := body.(coyoteTime := Max(0.0, body.coyoteTime - dt));
      status := status.(respawnInvincibility := if status.respawnInvincibility - 1 > 0 then status.respawnInvincibility - 1 else 0);
    }

    /** `apply_ground_movement`. */
    method ApplyGroundMovement(h: real)
      modifies this
      ensures View() == GroundMovement(old(View()), h)
    {
      var vx := body.vx;
      var v := GroundVelocity(View(), h);
      body := body.(vx := v);
      if h != 0.0 {
        if Abs(v) > tuning.maxWalkSpeed * 1.2 {
          ChangeState(Running);
        } else if Abs(v) > 0.5 {
          ChangeState(Walking);
        }
      } else if Abs(vx) <= 0.1 && (status.state == Walking || status.state == Running) {
        ChangeState(Idle);
      }
    }

    /** `apply_air_movement`. */
    method ApplyAirMovement(h: real)
      modifies this
      ensures View() == AirMovement(old(View()), h)
    {
      if h != 0.0 {
        body := body.(vx := Approach(body.vx, AirTarget(View(), h), AirAcceleration));
      } else if Abs(body.vx) > 0.1 {
        body := body.(vx := body.vx * (1.0 - AirDeceleration));
      }
    }

    /** The facing update of `handle_input`. */
    method Face(pad: Input.Pad)
      modifies this
      ensures View() == Fighters.Face(old(View()), pad)
    {
      if Input.IsPressed(pad, Input.MoveLeft) && body.facingRight {
        body := body.(facingRight := false);
      }
      if Input.IsPressed(pad, Input.MoveRight) && !body.facingRight {
        body := body.(facingRight := true);
      }
    }

    /** The jump of `handle_input`. */
    method Jump(pad: Input.Pad)
      modifies this
      ensures View() == Fighters.Jump(old(View()), pad)
    {
      if Input.WasJustPressed(pad, Input.Jump) && (body.onGround || body.coyoteTime > 0.0) {
        var power := if !Input.IsPressed(pad, Input.Jump) then ShortHopStrength else JumpStrength(archetype);
        body := body.(vy := -power, onGround := false, canJump := false, coyoteTime := 0.0);
        ChangeState(Jumping);
      }
    }

    /** The crouch of `handle_input`. */
    method Crouch(pad: Input.Pad)
      modifies this
      ensures View() == Fighters.Crouch(old(View()), pad)
    {
      if Input.IsPressed(pad, Input.Crouch) && body.onGround {
        if status.state != Crouching {
          ChangeState(Crouching);
        }
      } else if status.state == Crouching {
        ChangeState(Idle);
      }
    }

    /** `handle_input` up to the attack request: facing, movement, jump, jump cut, crouch. */
    method Move(pad: Input.Pad)
      modifies this
      ensures View() == Fighters.Move(old(View()), pad)
    {
      Face(pad);
      var h := HorizontalInput(pad);
      if body.onGround {
        ApplyGroundMovement(h);
      } else {
        ApplyAirMovement(h);
      }
      Jump(pad);
      ghost var f3 := View();
      if !Input.IsPressed(pad, Input.Jump) && body.vy < 0.0 && status.state == Jumping {
        body := body.(vy := body.vy * 0.5);
      }
      assert View() == JumpCut(f3, pad);
      Crouch(pad);
    }

    /** `handle_input`; `ok` is false when the attack request fails. */
    method HandleInput(pad: Input.Pad) returns (ok: bool)
      modifies this
      ensures ok == Fighters.HandleInput(old(View()), pad).Ok?
      ensures ok ==> View() == Fighters.HandleInput(old(View()), pad).value
    {
      Move(pad);
      ok := true;
      if Input.WasJustPressed(pad, Input.Attack) {
        ok := PerformAttack(Input.AttackDirectionOf(pad));
      }
    }

    /** `perform_attack` of each archetype; `ok` is false when the Heavy reads the armor
        key of a descriptor that is not there. */
    method PerformAttack(d: Input.AttackDirection) returns (ok: bool)
      modifies this
      ensures ok == Fighters.PerformAttack(old(View()), d).Ok?
      ensures ok ==> View() == Fighters.PerformAttack(old(View()), d).value
    {
      ok := true;
      if !status.canAct || status.isAttacking {
        return;
      }
      var rejected := CooldownRejects(View(), d);
      status := status.(isAttacking := true, attackFrames := 0, canAct := false);
      match archetype
      case Generic =>
        LoadMove(d);
      case Warrior =>
        if d.Side? {
          body := body.(vx := 0.0);
        }
        LoadMove(d);
      case Speedster =>
        if !rejected {
          SpeedsterMove(d);
        }
      case Heavy =>
        if !rejected {
          ok := HeavyMove(d);
        }
    }

    /** Enters the direction's attack state and loads its descriptor, when the branch exists. */
    method LoadMove(d: Input.AttackDirection)
      modifies this
      ensures View() == Fighters.LoadMove(old(View()), d).(hitboxCreated := false)
    {
      if HasBranch(archetype, d) {
        ChangeState(AttackState(d));
        currentAttack := Some(Descriptor(archetype, d));
      }
      hitboxCreated := false;
    }

    /** The Speedster's `perform_attack` after the lock. */
    method SpeedsterMove(d: Input.AttackDirection)
      modifies this
      ensures View() == Fighters.SpeedsterMove(old(View()), d)
    {
      LoadMove(d);
      if d.SideSpecial? {
        body := body.(vx := Facing(body.facingRight, SideSpecialBurst));
        speedster := speedster.(sideSpecialCooldown := SideSpecialCooldownFrames);
      } else if d.Up? {
        speedster := speedster.(isFlyingUp := true, flightTimer := FlightFrames);
        upSpecialCooldown := UpSpecialCooldownFrames;
      }
    }

    /** The Heavy's `perform_attack` after the lock; false where the source raises. */
    method HeavyMove(d: Input.AttackDirection) returns (ok: bool)
      modifies this
      ensures ok == Fighters.HeavyMove(old(View()), d).Ok?
      ensures ok ==> View() == Fighters.HeavyMove(old(View()), d).value
    {
      ghost var locked := View();
      if d.Up? {
        PoundLaunch();
      }
      ghost var g := if d.Up? then Fighters.PoundLaunch(locked) else locked;
      LoadMove(d);
      ghost var g1 := Fighters.LoadMove(g, d);
      if d.Up? {
        StorePound();
      }
      ghost var g2 := if d.Up? then Fighters.StorePound(g1) else g1;
      assert View() == g2.(hitboxCreated := false);
      ok := currentAttack.Some?;
      if ok && currentAttack.value.armorFrames.Some? {
        heavy := heavy.(hasSuperArmor := true, armorTimer := currentAttack.value.armorFrames.value);
        assert View() == ActivateSuperArmor(g2, g2.currentAttack.value.armorFrames.value).(hitboxCreated := false);
      }
    }

    /** The up special's launch into the ground pound. */
    method PoundLaunch()
      modifies this
      ensures View() == Fighters.PoundLaunch(old(View()))
    {
      body := body.(vy := -JumpStrength(Heavy) * 1.2, onGround := false);
      heavy := heavy.(isGroundPounding := true);
    }

    /** Keeps the loaded descriptor for the landing and starts the up special's cooldown. */
    method StorePound()
      modifies this
      ensures View() == Fighters.StorePound(old(View()))
    {
      heavy := heavy.(groundPoundData := currentAttack);
      upSpecialCooldown := UpSpecialCooldownFrames;
    }

    /** `update_physics`. */
    method UpdatePhysics(dt: real)
      modifies this
      ensures View() == Fighters.UpdatePhysics(old(View()), dt)
    {
      if !body.onGround && body.coyoteTime > 0.0 {
        body := body.(coyoteTime := body.coyoteTime - dt);
        if body.coyoteTime <= 0.0 {
          body := body.(coyoteTime := 0.0);
        }
      }
      if body.onGround && status.state == Falling {
        ChangeState(Landing);
        body := body.(canJump := true);
      }
    }

    /** `update_state_machine`. */
    method UpdateStateMachine()
      modifies this
      ensures View() == Fighters.UpdateStateMachine(old(View()))
    {
      if status.state == Landing && status.stateTimer > LandingLag {
        ChangeState(Idle);
        status := status.(canAct := true);
      }
      if status.state == Jumping && body.vy > 0.0 {
        ChangeState(Falling);
      }
      if status.state == HitStun && status.hitStunTimer <= 0.0 {
        status := status.(canAct := true);
        if body.onGround {
          ChangeState(Idle);
        } else {
          ChangeState(Falling);
        }
      }
    }

    /** `create_attack_hitbox` of each archetype. */
    method CreateAttackHitbox()
      modifies this
      ensures View() == Fighters.CreateAttackHitbox(old(View()))
    {
      if currentAttack.None? {
        return;
      }
      ghost var f := View();
      var atk := currentAttack.value;
      match archetype
      case Generic =>
        hitboxes := hitboxes + [BasicHitbox(atk, body.x, body.y, body.facingRight)];
        assert View() == AppendBox(f, BasicHitbox(atk, f.body.x, f.body.y, f.body.facingRight));
      case Warrior =>
        if atk.kind == EnergyProjectile {
          hitboxes := hitboxes + [WarriorProjectile(atk, body.x, body.y, body.facingRight)];
          assert View() == AppendBox(f, WarriorProjectile(atk, f.body.x, f.body.y, f.body.facingRight));
        } else {
          hitboxes := hitboxes + [WarriorMelee(atk, body.x, body.y, body.facingRight)];
          assert View() == AppendBox(f, WarriorMelee(atk, f.body.x, f.body.y, f.body.facingRight));
        }
      case Speedster =>
        if atk.kind == SpeedBoost {
          if !speedster.boostActive {
            speedster := speedster.(boostActive := true, boostTimer := atk.buffDuration);
            tuning := BoostedTuning(archetype);
          }
          assert View() == ApplySpeedBoost(f, atk);
        } else {
          hitboxes := hitboxes + [SpeedsterHitbox(atk, body.x, body.y, body.facingRight)];
          assert View() == AppendBox(f, SpeedsterHitbox(atk, f.body.x, f.body.y, f.body.facingRight));
        }
      case Heavy =>
        if atk.kind == ArmorStance {
          heavy := heavy.(powerStanceActive := true, powerStanceTimer := atk.stanceDuration, damageMultiplier := 0.5,
                          hasSuperArmor := true, armorTimer := atk.stanceDuration);
          assert View() == ApplyArmorStance(f, atk);
        } else if atk.kind == HammerSlam {
          hitboxCreated := true;
        } else {
          hitboxes := hitboxes + [HeavyHitbox(atk, body.x, body.y, body.facingRight)];
          assert View() == AppendBox(f, HeavyHitbox(atk, f.body.x, f.body.y, f.body.facingRight));
        }
    }

    /** `end_attack`, with the Heavy's override that waits for a ground pound to land. */
    method EndAttack()
      modifies this
      ensures View() == Fighters.EndAttack(old(View()))
    {
      if archetype == Heavy && heavy.isGroundPounding {
        return;
      }
      status := status.(isAttacking := false, canAct := true);
      currentAttack := None;
      hitboxCreated := false;
      if body.onGround {
        ChangeState(Idle);
      } else {
        ChangeState(Falling);
      }
    }

    /** `update_attack_timing`. */
    method UpdateAttackTiming()
      modifies this
      ensures View() == AttackTiming(old(View()))
    {
      if currentAttack.None? {
        return;
      }
      var atk := currentAttack.value;
      if status.attackFrames < atk.startup {
      } else if status.attackFrames < atk.startup + atk.active {
        if !hitboxCreated {
          CreateAttackHitbox();
          hitboxCreated := true;
        }
      } else if status.attackFrames >= atk.startup + atk.active + atk.recovery {
        EndAttack();
      }
    }

    /** `Character.update`; false where an attack request raises. */
    method BaseUpdate(pad: Input.Pad, dt: real) returns (ok: bool)
      modifies this
      ensures ok == Fighters.BaseUpdate(old(View()), pad, dt).Ok?
      ensures ok ==> View() == Fighters.BaseUpdate(old(View()), pad, dt).value
    {
      TickTimers(dt);
      ok := true;
      if status.canAct && status.hitStunTimer <= 0.0 {
        ok := HandleInput(pad);
        if !ok {
          return;
        }
      }
      UpdatePhysics(dt);
      UpdateStateMachine();
      if status.isAttacking {
        status := status.(attackFrames := status.attackFrames + 1);
        UpdateAttackTiming();
      }
    }

    /** `Warrior.update_projectiles`: every projectile moves and ages, and the ones whose
        lifetime ran out or that left the screen horizontally are removed afterwards. */
    method UpdateProjectiles()
      modifies this
      ensures View() == Fighters.UpdateProjectiles(old(View()))
    {
      var boxes, drop := MoveProjectiles(hitboxes);
      hitboxes := RemoveFlagged(boxes, drop);
    }

    /** The first loop of `update_projectiles`: moves every projectile and notes the ones
        to remove. */
    static method MoveProjectiles(boxes0: seq<Hitbox>) returns (boxes: seq<Hitbox>, drop: seq<bool>)
      ensures boxes == StepProjectiles(boxes0) && drop == ExpiredProjectiles(boxes0)
    {
      boxes := boxes0;
      drop := [];
      var i := 0;
      while i < |boxes|
        invariant 0 <= i <= |boxes| == |boxes0| && |drop| == i
        invariant boxes[..i] == StepProjectiles(boxes0)[..i]
        invariant boxes[i..] == boxes0[i..]
        invariant drop == ExpiredProjectiles(boxes0)[..i]
      {
        var b := boxes[i];
        if b.isProjectile {
          b := b.(x := b.x + b.vx, y := b.y + b.vy, lifetime := b.lifetime - 1);
          boxes := boxes[i := b];
        }
        drop := drop + [b.isProjectile && WarriorProjectileGone(b)];
        i := i + 1;
      }
    }

    /** The removal loop of `update_projectiles`. */
    static method RemoveFlagged(boxes: seq<Hitbox>, drop: seq<bool>) returns (kept: seq<Hitbox>)
      requires |drop| == |boxes|
      ensures kept == Kept(boxes, drop)
    {
      kept := [];
      var j := 0;
      while j < |boxes|
        invariant 0 <= j <= |boxes|
        invariant kept == Kept(boxes[..j], drop[..j])
      {
        assert boxes[..j + 1][..j] == boxes[..j] && drop[..j + 1][..j] == drop[..j];
        if !drop[j] {
          kept := kept + [boxes[j]];
        }
        j := j + 1;
      }
      assert boxes[..j] == boxes && drop[..j] == drop;
    }

    /** `Speedster.update_multihit_attacks`: each due multi-hit box records the current frame. */
    method UpdateMultihitAttacks()
      modifies this
      ensures View() == UpdateMultihit(old(View()))
    {
      var boxes := hitboxes;
      var frame := status.attackFrames;
      var i := 0;
      while i < |boxes|
        invariant 0 <= i <= |boxes| == |hitboxes|
        invariant forall k :: 0 <= k < i ==> boxes[k] == RefreshMultihit(hitboxes[k], frame)
        invariant forall k :: i <= k < |boxes| ==> boxes[k] == hitboxes[k]
      {
        var b := boxes[i];
        if b.isMultihit && frame - b.lastHitFrame >= b.hitInterval {
          boxes := boxes[i := b.(lastHitFrame := frame)];
        }
        i := i + 1;
      }
      hitboxes := boxes;
    }

    /** The Speedster's part of `update` before the shared one. */
    method SpeedsterPrologue(pad: Input.Pad)
      modifies this
      ensures View() == Fighters.SpeedsterPrologue(old(View()), pad)
    {
      SpeedsterCooldownTick();
      Flight(pad);
      DashFriction();
      BoostTick();
    }

    /** The Speedster's three cooldowns count down. */
    method SpeedsterCooldownTick()
      modifies this
      ensures View() == Fighters.SpeedsterCooldownTick(old(View()))
    {
      upSpecialCooldown := Countdown(upSpecialCooldown);
      speedster := speedster.(sideAttackCooldown := Countdown(speedster.sideAttackCooldown),
                              sideSpecialCooldown := Countdown(speedster.sideSpecialCooldown));
    }

    /** The dash attack slows down and stops below unit speed. */
    method DashFriction()
      modifies this
      ensures View() == Fighters.DashFriction(old(View()))
    {
      if status.isAttacking && currentAttack.Some? && currentAttack.value.kind == DashAttack {
        body := body.(vx := body.vx * 0.85);
        if Abs(body.vx) < 1.0 {
          body := body.(vx := 0.0);
        }
      }
    }

    /** The Speedster's flight while its up special lasts. */
    method Flight(pad: Input.Pad)
      modifies this
      ensures View() == Fighters.Flight(old(View()), pad)
    {
      if speedster.isFlyingUp {
        if Input.IsPressed(pad, Input.Attack) && speedster.flightTimer > 0 {
          body := body.(vy := -SpeedsterAirSpeed, onGround := false);
          speedster := speedster.(flightTimer := speedster.flightTimer - 1);
          ChangeState(UpSpecial);
        } else {
          speedster := speedster.(isFlyingUp := false);
          EndAttack();
        }
      }
    }

    /** The speed buff's countdown, and `end_speed_boost` when it runs out. */
    method BoostTick()
      modifies this
      ensures View() == Fighters.BoostTick(old(View()))
    {
      if speedster.boostActive {
        speedster := speedster.(boostTimer := speedster.boostTimer - 1);
        if speedster.boostTimer <= 0 {
          speedster := speedster.(boostActive := false);
          tuning := BaseTuning(archetype);
        }
      }
    }

    /** The Heavy's part of `update` before the shared one. */
    method HeavyPrologue(pad: Input.Pad)
      modifies this
      ensures View() == Fighters.HeavyPrologue(old(View()), pad)
    {
      HeavyTimers();
      if heavy.isGroundPounding && body.onGround {
        CreateGroundPoundHitbox();
        heavy := heavy.(isGroundPounding := false);
        EndAttack();
      }
      SlideBodySlam(pad);
    }

    /** The Heavy's cooldown, armor and stance timers. */
    method HeavyTimers()
      modifies this
      ensures View() == Fighters.HeavyTimers(old(View()))
    {
      upSpecialCooldown := Countdown(upSpecialCooldown);
      if heavy.hasSuperArmor && heavy.armorTimer > 0 {
        heavy := heavy.(armorTimer := heavy.armorTimer - 1);
        if heavy.armorTimer <= 0 {
          heavy := heavy.(hasSuperArmor := false);
        }
      }
      if heavy.powerStanceActive && heavy.powerStanceTimer > 0 {
        heavy := heavy.(powerStanceTimer := heavy.powerStanceTimer - 1);
        if heavy.powerStanceTimer <= 0 {
          heavy := heavy.(powerStanceActive := false, damageMultiplier := 1.0, hasSuperArmor := false);
        }
      }
    }

    /** `create_ground_pound_hitbox`. */
    method CreateGroundPoundHitbox()
      modifies this
      ensures View() == Fighters.CreateGroundPoundHitbox(old(View()))
    {
      if heavy.groundPoundData.Some? {
        hitboxes := hitboxes + [Shockwave(heavy.groundPoundData.value, body.x, body.y)];
        heavy := heavy.(groundPoundData := None);
      }
    }

    /** The body slam's slide, cancelled by pointing the stick back. */
    method SlideBodySlam(pad: Input.Pad)
      modifies this
      ensures View() == Fighters.SlideBodySlam(old(View()), pad)
    {
      if status.isAttacking && currentAttack.Some? && currentAttack.value.isBodySlam {
        body := body.(vx := Facing(body.facingRight, BodySlamSpeed));
        if (body.facingRight && pad.horizontalAxis < -0.5) || (!body.facingRight && pad.horizontalAxis > 0.5) {
          body := body.(vx := 0.0);
          EndAttack();
        }
      }
    }

    /** `update` of each archetype; false where an attack request raises. */
    method Update(pad: Input.Pad, dt: real) returns (ok: bool)
      modifies this
      ensures ok == Fighters.Update(old(View()), pad, dt).Ok?
      ensures ok ==> View() == Fighters.Update(old(View()), pad, dt).value
    {
      match archetype
      case Generic =>
        ok := BaseUpdate(pad, dt);
      case Warrior =>
        ok := BaseUpdate(pad, dt);
        if ok {
          UpdateProjectiles();
        }
      case Speedster =>
        SpeedsterPrologue(pad);
        ok := BaseUpdate(pad, dt);
        if ok {
          UpdateMultihitAttacks();
        }
      case Heavy =>
        HeavyPrologue(pad);
        ok := BaseUpdate(pad, dt);
    }

    /** `take_damage`, with the Heavy's armored override. */
    method TakeDamage(damage: real, kbx: real, kby: real, num: Numerics)
      modifies this
      ensures View() == Fighters.TakeDamage(old(View()), damage, kbx, kby, num)
    {
      if archetype == Heavy && heavy.hasSuperArmor {
        damagePercent := damagePercent + damage * heavy.damageMultiplier;
      } else {
        BaseTakeDamage(damage, kbx, kby, num);
      }
    }

    /** `Character.take_damage`. */
    method BaseTakeDamage(damage: real, kbx: real, kby: real, num: Numerics)
      modifies this
      ensures View() == Fighters.BaseTakeDamage(old(View()), damage, kbx, kby, num)
    {
      if status.invincibilityTimer > 0.0 || status.respawnInvincibility > 0 {
        return;
      }
      Hit(damage, kbx, kby, num);
      ChangeState(HitStun);
    }

    /** The percent, launch and hitstun of `take_damage`. */
    method Hit(damage: real, kbx: real, kby: real, num: Numerics)
      modifies this
      ensures View() == Fighters.Hit(old(View()), damage, kbx, kby, num)
    {
      damagePercent := damagePercent + damage;
      var m := KnockbackScale(damagePercent, num);
      body := body.(vx := body.vx + Launch(kbx, m, archetype), vy := body.vy + Launch(kby, m, archetype));
      status := status.(hitStunTimer := (damage + damagePercent * 0.02) * 0.01, canAct := false,
                        invincibilityTimer := HitInvincibility);
    }

    /** `lose_life`. */
    method LoseLife()
      modifies this
      ensures View() == Fighters.LoseLife(old(View()))
    {
      lives := lives - 1;
      damagePercent := 0.0;
    }

    /** `get_collision_rect`. */
    function CollisionRect(): (r: Rect)
      reads this
      ensures r == Fighters.CollisionRect(View())
    {
      RectAt(body.x - 30.0, body.y - 80.0, Width, Height)
    }
  }
}
