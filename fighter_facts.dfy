/** Properties of the fighter state machine that relate several operations or hold over
    whole attacks: the invariant every tick preserves, input gating, one hitbox per
    attack, the lock a refused special leaves behind, and the Heavy's ground pound and
    body slam. */
module FighterFacts {
  import opened Common
  import opened Moves
  import opened Fighters
  import Input

  /** `change_state` records the state it leaves and restarts the state timer; LANDING
      takes control away, IDLE, WALKING and RUNNING give it back and clear the attack,
      FALLING leaves the ground, and the hit and invincibility timers are never touched. */
  lemma ChangeStateFacts(f: Fighter, s: CharState)
    ensures var r := ChangeState(f, s);
            (s != f.status.state ==> r.status.previousState == f.status.state && r.status.stateTimer == 0.0) &&
            (s != f.status.state && s == Landing ==> !r.status.canAct) &&
            (s != f.status.state && FreesAction(s) ==>
               r.status.canAct && !r.status.isAttacking && r.status.attackFrames == 0) &&
            (s != f.status.state && s == Falling ==> !r.body.onGround) &&
            (s != Landing && !FreesAction(s) ==>
               r.status.canAct == f.status.canAct && r.status.isAttacking == f.status.isAttacking &&
               r.status.attackFrames == f.status.attackFrames) &&
            (s != Falling ==> r.body == f.body) &&
            r.status.hitStunTimer == f.status.hitStunTimer && r.status.invincibilityTimer == f.status.invincibilityTimer &&
            r.status.respawnInvincibility == f.status.respawnInvincibility
  {
  }

  // ---------------------------------------------------------------- the invariant

  lemma TickTimersConsistent(f: Fighter, dt: real)
    requires Consistent(f) && dt >= 0.0
    ensures Consistent(TickTimers(f, dt))
  {
  }

  lemma MoveConsistent(f: Fighter, pad: Input.Pad)
    requires Consistent(f)
    ensures Consistent(Move(f, pad)) && Move(f, pad).hitboxes == f.hitboxes
    ensures Move(f, pad).currentAttack == f.currentAttack && Move(f, pad).archetype == f.archetype
  {
    var f1 := Face(f, pad);
    var h := HorizontalInput(pad);
    var f2 := if f1.body.onGround then GroundMovement(f1, h) else AirMovement(f1, h);
    assert Consistent(f2);
    var f3 := Jump(f2, pad);
    assert Consistent(f3);
  }

  /** Starting an attack keeps the tuning, the boxes, the lives and the percent, and loads
    only descriptors from the tables. */
  lemma PerformAttackPreserves(f: Fighter, d: Input.AttackDirection)
    ensures var r := PerformAttack(f, d);
            r.Ok? ==> Preserves(f, r.value) && r.value.hitboxes == f.hitboxes && r.value.lives == f.lives &&
                      r.value.damagePercent == f.damagePercent
  {
    if f.status.canAct && !f.status.isAttacking {
      var locked := Lock(f);
      match f.archetype
      case Generic => LoadMovePreserves(f, locked, d);
      case Warrior => LoadMovePreserves(f, if d.Side? then SetVx(locked, 0.0) else locked, d);
      case Speedster => if !CooldownRejects(f, d) { SpeedsterMovePreserves(f, d); }
      case Heavy => if !CooldownRejects(f, d) { HeavyMovePreserves(f, d); }
    }
  }

  lemma LoadMovePreserves(f: Fighter, g: Fighter, d: Input.AttackDirection)
    requires g == f.(status := g.status, body := g.body) && g.body.coyoteTime == f.body.coyoteTime
    ensures var r := LoadMove(g, d).(hitboxCreated := false);
            Preserves(f, r) && r.hitboxes == f.hitboxes && r.lives == f.lives && r.damagePercent == f.damagePercent
  {
  }

  lemma SpeedsterMovePreserves(f: Fighter, d: Input.AttackDirection)
    ensures var r := SpeedsterMove(Lock(f), d);
            Preserves(f, r) && r.hitboxes == f.hitboxes && r.lives == f.lives && r.damagePercent == f.damagePercent
  {
  }

  lemma HeavyMovePreserves(f: Fighter, d: Input.AttackDirection)
    ensures var r := HeavyMove(Lock(f), d);
            r.Ok? ==> Preserves(f, r.value) && r.value.hitboxes == f.hitboxes && r.value.lives == f.lives &&
                      r.value.damagePercent == f.damagePercent
  {
    var locked := Lock(f);
    var g := if d.Up? then PoundLaunch(locked) else locked;
    assert KeptBy(f, g);
    var g1 := LoadMove(g, d);
    LoadMoveKeeps(f, g, d);
    var g2 := if d.Up? then StorePound(g1) else g1;
    assert KeptBy(f, g2) by {
      if d.Up? {
        StorePoundKeeps(f, g1);
      }
    }
    if g2.currentAttack.Some? {
      var frames := g2.currentAttack.value.armorFrames;
      var g3 := if frames.Some? then ActivateSuperArmor(g2, frames.value) else g2;
      assert HeavyMove(locked, d) == Ok(g3.(hitboxCreated := false));
      assert KeptBy(f, g3.(hitboxCreated := false));
    }
  }

  /** What a successful attack request keeps: `Preserves`, the boxes, the lives and the
      percent. */
  predicate KeptBy(f: Fighter, g: Fighter)
  {
    Preserves(f, g) && g.hitboxes == f.hitboxes && g.lives == f.lives && g.damagePercent == f.damagePercent
  }

  /** Loading a move keeps what an earlier step kept. */
  lemma LoadMoveKeeps(f: Fighter, g: Fighter, d: Input.AttackDirection)
    requires KeptBy(f, g)
    ensures KeptBy(f, LoadMove(g, d)) && (d.Up? ==> ValidLoaded(LoadMove(g, d).currentAttack))
  {
  }

  /** Storing a valid loaded descriptor for the landing keeps what an earlier step kept. */
  lemma StorePoundKeeps(f: Fighter, g: Fighter)
    requires KeptBy(f, g) && ValidLoaded(g.currentAttack)
    ensures KeptBy(f, StorePound(g))
  {
  }

  lemma HandleInputConsistent(f: Fighter, pad: Input.Pad)
    requires Consistent(f)
    ensures HandleInput(f, pad).Ok? ==> Consistent(HandleInput(f, pad).value)
  {
    MoveConsistent(f, pad);
    PerformAttackPreserves(Move(f, pad), Input.AttackDirectionOf(pad));
  }

  /** `create_attack_hitbox` appends at most one box, leaves the earlier ones alone, and
      changes no state outside the boxes and the archetype's buff or stance. */
  lemma CreateAttackHitboxFacts(f: Fighter)
    ensures var r := CreateAttackHitbox(f);
            (|r.hitboxes| == |f.hitboxes| || |r.hitboxes| == |f.hitboxes| + 1) &&
            r.hitboxes[..|f.hitboxes|] == f.hitboxes &&
            (|r.hitboxes| == |f.hitboxes| + 1 ==> f.currentAttack.Some?) &&
            (|r.hitboxes| == |f.hitboxes| + 1 && !r.hitboxes[|f.hitboxes|].isProjectile ==>
               r.hitboxes[|f.hitboxes|].framesRemaining == f.currentAttack.value.active)
    ensures var r := CreateAttackHitbox(f);
            r.playerId == f.playerId && r.lives == f.lives &&
            r.speedster.sideAttackCooldown == f.speedster.sideAttackCooldown &&
            r.heavy.groundPoundData == f.heavy.groundPoundData &&
            (SpeedsConsistent(f) ==> SpeedsConsistent(r)) &&
            (ValidLoaded(f.currentAttack) && MultihitIntervalsPositive(f.hitboxes) ==> MultihitIntervalsPositive(r.hitboxes))
  {
  }

  /** The generic fighter's box is the base melee box in front of it. */
  lemma GenericCreatesBasicBox(f: Fighter)
    requires f.currentAttack.Some? && f.archetype == Generic
    ensures CreateAttackHitbox(f) == AppendBox(f, BasicHitbox(f.currentAttack.value, f.body.x, f.body.y, f.body.facingRight))
  {
  }

  lemma AttackTimingConsistent(f: Fighter)
    requires Consistent(f)
    ensures Consistent(AttackTiming(f))
  {
    CreateAttackHitboxFacts(f);
  }

  /** `Character.update` keeps the invariant. */
  lemma BaseUpdateConsistent(f: Fighter, pad: Input.Pad, dt: real)
    requires Consistent(f) && dt >= 0.0
    ensures BaseUpdate(f, pad, dt).Ok? ==> Consistent(BaseUpdate(f, pad, dt).value)
  {
    var f1 := TickTimers(f, dt);
    TickTimersConsistent(f, dt);
    var r := if AcceptsInput(f1) then HandleInput(f1, pad) else Ok(f1);
    assert r.Ok? ==> Consistent(r.value) by {
      if AcceptsInput(f1) {
        HandleInputConsistent(f1, pad);
      }
    }
    if r.Ok? {
      assert BaseUpdate(f, pad, dt) == Ok(AttackStep(UpdateStateMachine(UpdatePhysics(r.value, dt))));
      StepTailConsistent(r.value, dt);
    }
  }

  /** Physics, the state machine and the attack timing keep the invariant. */
  lemma StepTailConsistent(f: Fighter, dt: real)
    requires Consistent(f)
    ensures Consistent(AttackStep(UpdateStateMachine(UpdatePhysics(f, dt))))
  {
    var f3 := UpdateStateMachine(UpdatePhysics(f, dt));
    assert Consistent(f3);
    if f3.status.isAttacking {
      AttackTimingConsistent(f3.(status := f3.status.(attackFrames := f3.status.attackFrames + 1)));
    }
  }

  lemma SpeedsterPrologueConsistent(f: Fighter, pad: Input.Pad)
    requires Consistent(f)
    ensures Consistent(SpeedsterPrologue(f, pad))
  {
    var f1 := SpeedsterCooldownTick(f);
    FlightConsistent(f1, pad);
    var f2 := Flight(f1, pad);
    assert Consistent(DashFriction(f2));
  }

  lemma FlightConsistent(f: Fighter, pad: Input.Pad)
    requires Consistent(f)
    ensures Consistent(Flight(f, pad))
  {
  }

  lemma HeavyPrologueConsistent(f: Fighter, pad: Input.Pad)
    requires Consistent(f)
    ensures Consistent(HeavyPrologue(f, pad))
  {
    var f1 := HeavyTimers(f);
    assert Consistent(f1);
    LandGroundPoundConsistent(f1);
    SlideBodySlamConsistent(LandGroundPound(f1), pad);
  }

  lemma LandGroundPoundConsistent(f: Fighter)
    requires Consistent(f)
    ensures Consistent(LandGroundPound(f))
  {
    if f.heavy.isGroundPounding && f.body.onGround {
      var g := CreateGroundPoundHitbox(f);
      assert Consistent(g);
    }
  }

  lemma SlideBodySlamConsistent(f: Fighter, pad: Input.Pad)
    requires Consistent(f)
    ensures Consistent(SlideBodySlam(f, pad))
  {
  }

  lemma {:induction false} KeptFromMultihitPositive(boxes: seq<Hitbox>, drop: seq<bool>)
    requires |drop| == |boxes| && MultihitIntervalsPositive(boxes)
    ensures MultihitIntervalsPositive(Kept(boxes, drop))
  {
  }

  lemma UpdateProjectilesConsistent(f: Fighter)
    requires Consistent(f)
    ensures Consistent(UpdateProjectiles(f))
  {
    var moved := StepProjectiles(f.hitboxes);
    assert MultihitIntervalsPositive(moved) by {
      forall b | b in moved && b.isMultihit ensures b.hitInterval >= 1 {
        var i :| 0 <= i < |moved| && moved[i] == b;
        assert f.hitboxes[i] in f.hitboxes;
      }
    }
    KeptFromMultihitPositive(moved, ExpiredProjectiles(f.hitboxes));
  }

  lemma UpdateMultihitConsistent(f: Fighter)
    requires Consistent(f)
    ensures Consistent(UpdateMultihit(f))
  {
    var r := UpdateMultihit(f);
    forall b | b in r.hitboxes && b.isMultihit ensures b.hitInterval >= 1 {
      var i :| 0 <= i < |r.hitboxes| && r.hitboxes[i] == b;
      assert f.hitboxes[i] in f.hitboxes;
    }
  }

  /** Every tick keeps the invariant: coyote time stays 0 (so a jump needs the ground),
      the Speedster's side attack is never on cooldown, speeds are always the base or the
      boosted values, and multi-hit boxes keep a positive interval. */
  lemma UpdateConsistent(f: Fighter, pad: Input.Pad, dt: real)
    requires Consistent(f) && dt >= 0.0
    ensures Update(f, pad, dt).Ok? ==> Consistent(Update(f, pad, dt).value)
  {
    match f.archetype
    case Generic => BaseUpdateConsistent(f, pad, dt);
    case Warrior =>
      BaseUpdateConsistent(f, pad, dt);
      if BaseUpdate(f, pad, dt).Ok? {
        UpdateProjectilesConsistent(BaseUpdate(f, pad, dt).value);
      }
    case Speedster =>
      var p := SpeedsterPrologue(f, pad);
      SpeedsterPrologueConsistent(f, pad);
      BaseUpdateConsistent(p, pad, dt);
      if BaseUpdate(p, pad, dt).Ok? {
        UpdateMultihitConsistent(BaseUpdate(p, pad, dt).value);
      }
    case Heavy =>
      HeavyPrologueConsistent(f, pad);
      BaseUpdateConsistent(HeavyPrologue(f, pad), pad, dt);
  }

  /** With coyote time stuck at 0, a jump needs the ground. */
  lemma JumpNeedsGround(f: Fighter)
    requires Consistent(f)
    ensures JumpAllowed(f) <==> f.body.onGround
  {
  }

  /** A hit keeps the invariant. */
  lemma TakeDamageConsistent(f: Fighter, damage: real, kbx: real, kby: real, num: Numerics)
    requires Consistent(f)
    ensures Consistent(TakeDamage(f, damage, kbx, kby, num))
  {
  }

  // ---------------------------------------------------------------- input gating

  /** A fighter that cannot act, or is in hitstun after the timers ran, ignores its pad
      entirely in `Character.update`. */
  lemma InputGated(f: Fighter, pad1: Input.Pad, pad2: Input.Pad, dt: real)
    requires !AcceptsInput(TickTimers(f, dt))
    ensures BaseUpdate(f, pad1, dt) == BaseUpdate(f, pad2, dt)
  {
  }

  // ---------------------------------------------------------------- attack phases

  /** `n` consecutive attack epilogues, with nothing else happening in between. */
  function AttackSteps(f: Fighter, n: nat): Fighter
  {
    if n == 0 then f else AttackStep(AttackSteps(f, n - 1))
  }

  /** A freshly started attack: locked, counter at 0, no box yet, a descriptor from the
      tables loaded. */
  predicate FreshAttack(f: Fighter)
  {
    f.status.isAttacking && f.status.attackFrames == 0 && !f.hitboxCreated &&
    f.currentAttack.Some? && ValidAttack(f.currentAttack.value) &&
    !(f.archetype == Heavy && f.heavy.isGroundPounding)
  }

  function WithFrames(f: Fighter, k: int): Fighter
  {
    f.(status := f.status.(attackFrames := k))
  }

  lemma CreateIgnoresFrames(f: Fighter, k: int)
    ensures CreateAttackHitbox(WithFrames(f, k)) == WithFrames(CreateAttackHitbox(f), k)
  {
  }

  /** The fighter an attack leaves once its box exists. */
  function Spawned(f: Fighter): Fighter
  {
    CreateAttackHitbox(f).(hitboxCreated := true)
  }

  /** Where a fresh attack `f` stands after `k` epilogues: the counter is `k`, the box
      exists exactly from the first active frame on, and once the counter reaches
      startup + active + recovery the attack has ended on the fighter holding its box. */
  function Phase(f: Fighter, k: nat): Fighter
    requires f.currentAttack.Some?
  {
    var atk := f.currentAttack.value;
    var n := atk.startup + atk.active + atk.recovery;
    if k < atk.startup then WithFrames(f, k)
    else if k < n then WithFrames(Spawned(f), k)
    else BaseEndAttack(WithFrames(Spawned(f), n))
  }

  /** One epilogue moves an unfinished attack one phase on. */
  lemma PhaseStep(f: Fighter, k: nat)
    requires FreshAttack(f)
    requires k < f.currentAttack.value.startup + f.currentAttack.value.active + f.currentAttack.value.recovery
    ensures AttackStep(Phase(f, k)) == Phase(f, k + 1)
  {
    var atk := f.currentAttack.value;
    if k + 1 == atk.startup + atk.active + atk.recovery {
      LastTick(Spawned(f), k + 1);
    } else if k < atk.startup {
      StartupTick(f, k);
    } else {
      ActiveTick(f, k);
    }
  }

  /** During startup the counter moves on; on the first active frame the box appears. */
  lemma StartupTick(f: Fighter, k: nat)
    requires FreshAttack(f) && k < f.currentAttack.value.startup
    ensures AttackStep(WithFrames(f, k)) ==
            if k + 1 < f.currentAttack.value.startup then WithFrames(f, k + 1) else WithFrames(Spawned(f), k + 1)
  {
    CreateIgnoresFrames(f, k + 1);
  }

  /** Once the box exists, the counter moves on until recovery is over. */
  lemma ActiveTick(f: Fighter, k: nat)
    requires FreshAttack(f) && f.currentAttack.value.startup <= k
    requires k + 1 < f.currentAttack.value.startup + f.currentAttack.value.active + f.currentAttack.value.recovery
    ensures AttackStep(WithFrames(Spawned(f), k)) == WithFrames(Spawned(f), k + 1)
  {
  }

  /** Each of the first startup + active + recovery epilogues follows the phases. */
  lemma {:induction false} AttackStepsFollowPhases(f: Fighter, k: nat)
    requires FreshAttack(f)
    requires k <= f.currentAttack.value.startup + f.currentAttack.value.active + f.currentAttack.value.recovery
    ensures AttackSteps(f, k) == Phase(f, k)
  {
    if k > 0 {
      AttackStepsFollowPhases(f, k - 1);
      var p := Phase(f, k - 1);
      assert AttackSteps(f, k) == AttackStep(p);
      PhaseStep(f, k - 1);
    }
  }

  lemma LastTick(c: Fighter, n: int)
    requires c.status.isAttacking && c.currentAttack.Some? && ValidAttack(c.currentAttack.value)
    requires n == c.currentAttack.value.startup + c.currentAttack.value.active + c.currentAttack.value.recovery
    requires !(c.archetype == Heavy && c.heavy.isGroundPounding)
    ensures AttackStep(WithFrames(c, n - 1)) == BaseEndAttack(WithFrames(c, n))
  {
    assert WithFrames(c, n - 1).(status := WithFrames(c, n - 1).status.(attackFrames := n)) == WithFrames(c, n);
  }

  /** An attack spawns its hitbox exactly once, on the first active frame, and ends on
      the tick its counter reaches startup + active + recovery, in IDLE on the ground and
      FALLING in the air. */
  lemma OneHitboxPerAttack(f: Fighter)
    requires FreshAttack(f)
    ensures var atk := f.currentAttack.value;
            var g := AttackSteps(f, atk.startup + atk.active + atk.recovery);
            !g.status.isAttacking && g.status.canAct && g.currentAttack.None? &&
            g.hitboxes == CreateAttackHitbox(f).hitboxes &&
            (f.body.onGround ==> g.status.state == Idle) && (!f.body.onGround ==> g.status.state == Falling)
  {
    var atk := f.currentAttack.value;
    var n := atk.startup + atk.active + atk.recovery;
    AttackStepsFollowPhases(f, n);
    FinalPhase(f, AttackSteps(f, n));
  }

  /** The phase an attack reaches after its last frame. */
  lemma FinalPhase(f: Fighter, g: Fighter)
    requires FreshAttack(f)
    requires g == Phase(f, f.currentAttack.value.startup + f.currentAttack.value.active + f.currentAttack.value.recovery)
    ensures !g.status.isAttacking && g.status.canAct && g.currentAttack.None? &&
            g.hitboxes == CreateAttackHitbox(f).hitboxes &&
            (f.body.onGround ==> g.status.state == Idle) && (!f.body.onGround ==> g.status.state == Falling)
  {
    var atk := f.currentAttack.value;
    var n := atk.startup + atk.active + atk.recovery;
    var c := Spawned(f);
    assert g == BaseEndAttack(WithFrames(c, n));
    EndedAttack(c, n);
    assert c.hitboxes == CreateAttackHitbox(f).hitboxes && c.body == f.body;
  }

  /** What ending an attack leaves: unlocked, no descriptor, the same boxes, and IDLE on
      the ground or FALLING in the air. */
  lemma EndedAttack(c: Fighter, n: int)
    ensures var g := BaseEndAttack(WithFrames(c, n));
            !g.status.isAttacking && g.status.canAct && g.currentAttack.None? && g.hitboxes == c.hitboxes &&
            (c.body.onGround ==> g.status.state == Idle) && (!c.body.onGround ==> g.status.state == Falling)
  {
  }

  /** Until then the fighter stays in its attack. */
  lemma AttackLastsItsFrames(f: Fighter, k: nat)
    requires FreshAttack(f)
    requires k < f.currentAttack.value.startup + f.currentAttack.value.active + f.currentAttack.value.recovery
    ensures AttackSteps(f, k).status.isAttacking && AttackSteps(f, k).status.attackFrames == k
    ensures |AttackSteps(f, k).hitboxes| == |f.hitboxes| + (if k < f.currentAttack.value.startup then 0 else |CreateAttackHitbox(f).hitboxes| - |f.hitboxes|)
  {
    AttackStepsFollowPhases(f, k);
  }

  /** The first box a Generic fighter's attack spawns is the 50x50 box with the attack's
      active frames. */
  lemma GenericAttackBox(f: Fighter)
    requires FreshAttack(f) && f.archetype == Generic
    ensures var atk := f.currentAttack.value;
            var g := AttackSteps(f, atk.startup + atk.active + atk.recovery);
            g.hitboxes == f.hitboxes + [BasicHitbox(atk, f.body.x, f.body.y, f.body.facingRight)] &&
            g.hitboxes[|f.hitboxes|].framesRemaining == atk.active
  {
    OneHitboxPerAttack(f);
  }

  // ---------------------------------------------------------------- the lock

  /** Locked with nothing to time out: the state a refused special, or a direction
      without a branch, leaves behind once no descriptor is loaded. */
  predicate SoftLocked(f: Fighter)
  {
    f.status.isAttacking && !f.status.canAct && f.currentAttack.None? && f.body.onGround &&
    f.status.state in {Idle, Walking, Running, Crouching} &&
    !f.speedster.isFlyingUp && !f.heavy.isGroundPounding
  }

  /** A refused special on a fighter with no descriptor loaded soft-locks it. */
  lemma RefusedSpecialLocks(f: Fighter, d: Input.AttackDirection)
    requires f.status.canAct && !f.status.isAttacking && f.currentAttack.None? && f.body.onGround
    requires f.status.state in {Idle, Walking, Running, Crouching} && !f.speedster.isFlyingUp && !f.heavy.isGroundPounding
    requires CooldownRejects(f, d) || (!HasBranch(f.archetype, d) && f.archetype != Heavy)
    ensures PerformAttack(f, d).Ok? && SoftLocked(PerformAttack(f, d).value)
  {
  }

  /** A soft-locked fighter stays locked through its own update, whatever the pad says:
      nothing but a hit (or the physics step moving it off the ground) frees it. */
  lemma SoftLockPersists(f: Fighter, pad: Input.Pad, dt: real)
    requires SoftLocked(f)
    ensures Update(f, pad, dt).Ok? && SoftLocked(Update(f, pad, dt).value)
  {
    match f.archetype
    case Generic =>
      BaseUpdateKeepsSoftLock(f, pad, dt);
    case Warrior =>
      BaseUpdateKeepsSoftLock(f, pad, dt);
    case Speedster =>
      SpeedsterPrologueKeepsSoftLock(f, pad);
      BaseUpdateKeepsSoftLock(SpeedsterPrologue(f, pad), pad, dt);
    case Heavy =>
      HeavyPrologueKeepsSoftLock(f, pad);
      BaseUpdateKeepsSoftLock(HeavyPrologue(f, pad), pad, dt);
  }

  /** The shared update of a soft-locked fighter ignores its pad and keeps the lock. */
  lemma BaseUpdateKeepsSoftLock(f: Fighter, pad: Input.Pad, dt: real)
    requires SoftLocked(f)
    ensures BaseUpdate(f, pad, dt).Ok? && SoftLocked(BaseUpdate(f, pad, dt).value)
  {
    var f1 := TickTimers(f, dt);
    assert !AcceptsInput(f1);
    assert SoftLocked(UpdateStateMachine(UpdatePhysics(f1, dt)));
  }

  lemma SpeedsterPrologueKeepsSoftLock(f: Fighter, pad: Input.Pad)
    requires SoftLocked(f)
    ensures SoftLocked(SpeedsterPrologue(f, pad))
  {
  }

  lemma HeavyPrologueKeepsSoftLock(f: Fighter, pad: Input.Pad)
    requires SoftLocked(f)
    ensures SoftLocked(HeavyPrologue(f, pad))
  {
  }

  // ---------------------------------------------------------------- damage

  /** A hit adds knockback times the scale at the new percent, divided by the weight, to
      the velocity, and sets hitstun from the damage and the new percent. */
  lemma HitLaunches(f: Fighter, damage: real, kbx: real, kby: real, num: Numerics)
    requires !Invincible(f)
    ensures var r := BaseTakeDamage(f, damage, kbx, kby, num);
            var m := KnockbackScale(r.damagePercent, num);
            var w := Weight(f.archetype);
            r.body == f.body.(vx := f.body.vx + kbx * m / w, vy := f.body.vy + kby * m / w) &&
            r.status.hitStunTimer == (damage + r.damagePercent * 0.02) * 0.01
  {
  }

  /** Below 100% the knockback scale grows strictly with the percent. */
  lemma KnockbackGrowsWithPercent(dp1: real, dp2: real, num: Numerics)
    requires dp1 < dp2 <= 100.0
    ensures KnockbackScale(dp1, num) < KnockbackScale(dp2, num)
  {
  }

  /** Under super armor the Heavy keeps its velocity, hitstun, state and invincibility;
      only the percent grows, by the damage times the stance multiplier. */
  lemma ArmorAbsorbsKnockback(f: Fighter, damage: real, kbx: real, kby: real, num: Numerics)
    requires f.archetype == Heavy && f.heavy.hasSuperArmor
    ensures var r := TakeDamage(f, damage, kbx, kby, num);
            r.body == f.body && r.status == f.status &&
            r.damagePercent == f.damagePercent + damage * f.heavy.damageMultiplier
  {
  }

  // ---------------------------------------------------------------- Heavy

  /** Landing while pounding spawns exactly one shockwave, clears the stored data and
      ends the attack. */
  lemma GroundPoundLands(f: Fighter, pad: Input.Pad)
    requires f.archetype == Heavy && f.heavy.isGroundPounding && f.body.onGround
    requires f.heavy.groundPoundData.Some?
    ensures var r := HeavyPrologue(f, pad);
            r.hitboxes == f.hitboxes + [Shockwave(f.heavy.groundPoundData.value, f.body.x, f.body.y)] &&
            r.heavy.groundPoundData.None? && !r.heavy.isGroundPounding &&
            !r.status.isAttacking && r.status.canAct && r.status.state == Idle
  {
  }

  /** A pound in the air is never ended early: the override keeps the attack alive. */
  lemma PoundSurvivesEndAttack(f: Fighter)
    requires f.archetype == Heavy && f.heavy.isGroundPounding
    ensures EndAttack(f) == f
  {
  }

  /** During a body slam the Heavy slides at 9 in its facing direction, unless the stick
      points back past 0.5, which stops it and ends the attack. */
  lemma BodySlamSlides(f: Fighter, pad: Input.Pad)
    requires f.archetype == Heavy && !f.heavy.isGroundPounding
    requires f.status.isAttacking && f.currentAttack.Some? && f.currentAttack.value.isBodySlam
    ensures var r := HeavyPrologue(f, pad);
            (!SlamCancelled(f, pad) ==> r.body.vx == Facing(f.body.facingRight, BodySlamSpeed) && r.status.isAttacking) &&
            (SlamCancelled(f, pad) ==> r.body.vx == 0.0 && !r.status.isAttacking)
  {
  }

  /** The up special launches the Heavy at 1.2 times its jump strength, starts the pound
      with the descriptor stored for landing, and puts the move on a 600-frame cooldown. */
  lemma HeavyUpSpecial(f: Fighter)
    requires f.archetype == Heavy && f.status.canAct && !f.status.isAttacking && f.upSpecialCooldown <= 0
    ensures var r := PerformAttack(f, Input.Up);
            r.Ok? && r.value.body.vy == -1.2 * JumpStrength(Heavy) && !r.value.body.onGround &&
            r.value.heavy.isGroundPounding && r.value.heavy.groundPoundData == Some(Descriptor(Heavy, Input.Up)) &&
            r.value.upSpecialCooldown == UpSpecialCooldownFrames
  {
  }

  /** Armored attacks turn super armor on for their armor frames. */
  lemma ArmoredAttacks(f: Fighter, d: Input.AttackDirection)
    requires f.archetype == Heavy && f.status.canAct && !f.status.isAttacking && (d.Neutral? || d.Side?)
    ensures var r := PerformAttack(f, d);
            r.Ok? && r.value.heavy.hasSuperArmor &&
            r.value.heavy.armorTimer == (if d.Neutral? then 10 else 40)
  {
  }

  /** Each Heavy update counts the armor down by one frame and drops it at zero. */
  lemma ArmorCountsDown(f: Fighter, pad: Input.Pad)
    requires f.archetype == Heavy && f.heavy.hasSuperArmor && f.heavy.armorTimer > 0 && !f.heavy.powerStanceActive
    requires !f.heavy.isGroundPounding
    ensures var r := HeavyPrologue(f, pad);
            r.heavy.armorTimer == f.heavy.armorTimer - 1 && (r.heavy.hasSuperArmor <==> f.heavy.armorTimer > 1)
  {
  }

  // ---------------------------------------------------------------- Speedster

  /** The cooldowns each drop by one per update while positive and never below zero;
      the side-special launch is 18 in the facing direction with a 300-frame cooldown. */
  lemma SpeedsterCooldowns(f: Fighter, pad: Input.Pad)
    requires f.archetype == Speedster && f.upSpecialCooldown >= 0 && f.speedster.sideSpecialCooldown >= 0
    ensures var r := SpeedsterPrologue(f, pad);
            r.upSpecialCooldown == Countdown(f.upSpecialCooldown) && r.upSpecialCooldown >= 0 &&
            r.speedster.sideSpecialCooldown == Countdown(f.speedster.sideSpecialCooldown) &&
            r.speedster.sideSpecialCooldown >= 0
  {
  }

  lemma SideSpecialLaunch(f: Fighter)
    requires f.archetype == Speedster && f.status.canAct && !f.status.isAttacking && f.speedster.sideSpecialCooldown <= 0
    ensures var r := PerformAttack(f, Input.SideSpecial);
            r.Ok? && r.value.body.vx == Facing(f.body.facingRight, SideSpecialBurst) &&
            r.value.speedster.sideSpecialCooldown == SideSpecialCooldownFrames
  {
  }

  /** While flying with `attack` held and time left, the Speedster rises at its air
      speed and spends one frame of flight; otherwise the flight and the attack end. */
  lemma FlightStep(f: Fighter, pad: Input.Pad)
    requires f.archetype == Speedster && f.speedster.isFlyingUp
    ensures var r := SpeedsterPrologue(f, pad);
            (Input.IsPressed(pad, Input.Attack) && f.speedster.flightTimer > 0 ==>
               r.body.vy == -SpeedsterAirSpeed && r.speedster.flightTimer == f.speedster.flightTimer - 1 &&
               r.status.state == UpSpecial) &&
            (!(Input.IsPressed(pad, Input.Attack) && f.speedster.flightTimer > 0) ==>
               !r.speedster.isFlyingUp && !r.status.isAttacking)
  {
  }

  /** After a Speedster update every multi-hit box it owns was refreshed at the current
      frame count, so the resolver's interval test, run next with the same count, fails. */
  lemma SpeedsterMultihitGap(f: Fighter, pad: Input.Pad, dt: real)
    requires f.archetype == Speedster && Consistent(f) && dt >= 0.0
    requires Update(f, pad, dt).Ok?
    ensures var g := Update(f, pad, dt).value;
            forall b :: b in g.hitboxes && b.isMultihit ==> g.status.attackFrames - b.lastHitFrame < b.hitInterval
  {
    UpdateConsistent(f, pad, dt);
    var g := Update(f, pad, dt).value;
    var p := SpeedsterPrologue(f, pad);
    SpeedsterPrologueConsistent(f, pad);
    BaseUpdateConsistent(p, pad, dt);
    var h := BaseUpdate(p, pad, dt).value;
    forall b | b in g.hitboxes && b.isMultihit ensures g.status.attackFrames - b.lastHitFrame < b.hitInterval {
      var i :| 0 <= i < |g.hitboxes| && g.hitboxes[i] == b;
      assert h.hitboxes[i] in h.hitboxes;
    }
  }
}
