/** `PhysicsManager`: the resolver's tick performed in place on the two `Character`
    objects of the match, in the source's order. Every method is proved against the
    function of `Physics` that specifies it, so what `PhysicsFacts` proves of those
    functions holds of the objects. */
module Resolver {
  import opened Common
  import opened Geometry
  import opened Moves
  import opened Fighters
  import opened Stages
  import opened Physics
  import PhysicsFacts
  import Characters

  class PhysicsManager {
    /** `k_o_d_players_this_frame`: player id to the KO flagged for it this tick. */
    var koThisFrame: map<int, Ko>

    constructor ()
      ensures koThisFrame == map[]
    {
      koThisFrame := map[];
    }

    /** `update`: clears the KO map, moves player 1 then player 2, resolves combat, and
        returns the map. */
    method Update(dt: real, p1: Characters.Character, p2: Characters.Character, stage: Stage, num: Numerics)
      returns (kos: map<int, Ko>)
      requires p1 != p2 && WellFormed(stage.View())
      modifies this, p1, p2
      ensures (p1.View(), p2.View(), kos) == Step(old(p1.View()), old(p2.View()), stage.View(), dt, num)
      ensures kos == koThisFrame
    {
      ghost var s := stage.View();
      ghost var (q1, q2, k) := Motion(old(p1.View()), old(p2.View()), s, dt);
      koThisFrame := map[];
      UpdateCharacterPhysics(p1, dt, stage);
      ghost var k1 := koThisFrame;
      assert (p1.View(), k1) == CharacterPhysics(old(p1.View()), dt, s, map[]);
      UpdateCharacterPhysics(p2, dt, stage);
      assert (p1.View(), p2.View(), koThisFrame) == (q1, q2, k);
      CheckCombatCollisions(p1, p2, num);
      kos := koThisFrame;
    }

    /** The resolver's own gravity and friction, used when the stage has none. */
    method ApplyDefaultGravity(c: Characters.Character)
      modifies c`body
      ensures c.body == DefaultGravity(old(c.body))
    {
      if !c.body.onGround {
        c.body := c.body.(vy := c.body.vy + Gravity);
        c.body := c.body.(vx := c.body.vx * (1.0 - AirFriction));
        if c.body.vy > TerminalVelocity {
          c.body := c.body.(vy := TerminalVelocity);
        }
      } else {
        c.body := c.body.(vx := c.body.vx * (1.0 - GroundFriction));
      }
    }

    /** `update_character_physics`: gravity, then the move cut into sub-steps, each followed
        by the platform test and the blast-zone check. */
    method UpdateCharacterPhysics(c: Characters.Character, dt: real, stage: Stage)
      requires WellFormed(stage.View())
      modifies c, this`koThisFrame
      ensures (c.View(), koThisFrame) == CharacterPhysics(old(c.View()), dt, stage.View(), old(koThisFrame))
    {
      ghost var s := stage.View();
      ApplyGravity(c, stage);
      ghost var g := c.View();
      assert g == Fall(old(c.View()), s);
      var dx := Movement(c.body.vx, dt);
      var dy := Movement(c.body.vy, dt);
      var steps := SubstepCount(dx, dy);
      MoveInSubsteps(c, dx / steps as real, dy / steps as real, steps, stage);
    }

    /** The stage's `apply_stage_gravity` when it has one, the resolver's own otherwise. */
    method ApplyGravity(c: Characters.Character, stage: Stage)
      requires WellFormed(stage.View())
      modifies c`body
      ensures c.View() == Fall(old(c.View()), stage.View())
    {
      if stage.kind.BaseStage? {
        ApplyDefaultGravity(c);
      } else {
        stage.ApplyStageGravity(c);
      }
    }

    /** The sub-step loop: move by one share, then the platform test and the blast-zone
        check. */
    method MoveInSubsteps(c: Characters.Character, sx: real, sy: real, steps: nat, stage: Stage)
      modifies c, this`koThisFrame
      ensures (c.View(), koThisFrame) == Substeps(old(c.View()), sx, sy, steps, stage.View(), old(koThisFrame))
    {
      ghost var s := stage.View();
      ghost var target := Substeps(c.View(), sx, sy, steps, s, koThisFrame);
      for i := 0 to steps
        invariant Substeps(c.View(), sx, sy, steps - i, s, koThisFrame) == target
      {
        ghost var f := c.View();
        ghost var kos := koThisFrame;
        MoveOneSubstep(c, sx, sy, stage);
        ghost var g := Physics.Substep(f, sx, sy, s);
        assert (c.View(), koThisFrame) == (g, RecordKo(kos, g.playerId, g.body.x, g.body.y, s.blast));
      }
    }

    /** One pass of the sub-step loop. */
    method MoveOneSubstep(c: Characters.Character, sx: real, sy: real, stage: Stage)
      modifies c, this`koThisFrame
      ensures c.View() == Physics.Substep(old(c.View()), sx, sy, stage.View())
      ensures koThisFrame == RecordKo(old(koThisFrame), c.playerId, c.body.x, c.body.y, stage.blast)
    {
      MoveBy(c, sx, sy);
      HandleStageCollision(c, stage);
    }

    /** The position update of one sub-step. */
    static method MoveBy(c: Characters.Character, sx: real, sy: real)
      modifies c`body
      ensures c.View() == old(c.View()).(body := old(c.body).(x := old(c.body.x) + sx, y := old(c.body.y) + sy))
    {
      c.body := c.body.(x := c.body.x + sx, y := c.body.y + sy);
    }

    /** `handle_stage_collision`: the platform test, then the blast-zone check. */
    method HandleStageCollision(c: Characters.Character, stage: Stage)
      modifies c, this`koThisFrame
      ensures c.View() == StageCollision(old(c.View()), stage.platforms)
      ensures koThisFrame == RecordKo(old(koThisFrame), c.playerId, c.body.x, c.body.y, stage.blast)
    {
      HandleModernStageCollision(c, stage);
      CheckBlastZoneKo(c, stage);
    }

    /** `handle_modern_stage_collision`: the platforms in list order until one takes the
        fighter; with none, airborne and FALLING unless rising. */
    method HandleModernStageCollision(c: Characters.Character, stage: Stage)
      modifies c
      ensures c.View() == StageCollision(old(c.View()), stage.platforms)
    {
      ghost var f := c.View();
      var ps := stage.platforms;
      var onPlatform := false;
      var i := 0;
      while i < |ps| && !onPlatform
        invariant 0 <= i <= |ps|
        invariant !onPlatform ==> c.View() == f && forall j :: 0 <= j < i ==> !OnPlatform(f.body, ps[j])
        invariant onPlatform ==> 1 <= i && FirstLanding(f.body, ps) == Some(i - 1) &&
                                 c.View() == f.(body := Land(f.body, ps[i - 1]))
      {
        onPlatform := CheckPlatformLanding(c, ps[i]);
        if onPlatform {
          PhysicsFacts.FirstLandingIsFirst(f.body, ps, i);
        }
        i := i + 1;
      }
      if !onPlatform {
        c.body := c.body.(onGround := false);
        if c.body.vy >= 0.0 {
          c.ChangeState(Falling);
        }
      } else {
        c.body := c.body.(onGround := true);
      }
    }

    /** `check_platform_landing`: whether the fighter stands in the platform's band, and
        the landing when it does. */
    method CheckPlatformLanding(c: Characters.Character, p: Platform) returns (landed: bool)
      modifies c`body
      ensures landed == OnPlatform(old(c.body), p)
      ensures c.body == if landed then Land(old(c.body), p) else old(c.body)
    {
      var bottom := c.body.y;
      var left := c.body.x - (Width as real) / 2.0;
      var right := c.body.x + (Width as real) / 2.0;
      var vertical := bottom >= p.y - 5.0 && bottom <= p.y + 10.0;
      var horizontal := right > p.x + 5.0 && left < p.x + p.width as real - 5.0;
      if vertical && horizontal {
        if c.body.vy > 0.0 {
          c.body := c.body.(y := p.y, vy := 0.0, onGround := true);
        }
        c.body := c.body.(onGround := true);
        return true;
      }
      return false;
    }

    /** `check_blast_zone_ko` with `get_stage_blast_zones` of an arena: the first zone the
        position violates, recorded only if the player has no KO yet this tick. */
    method CheckBlastZoneKo(c: Characters.Character, stage: Stage)
      modifies this`koThisFrame
      ensures koThisFrame == RecordKo(old(koThisFrame), c.playerId, c.body.x, c.body.y, stage.blast)
    {
      var x := c.body.x;
      var y := c.body.y;
      var z := stage.blast;
      var direction: Option<KoDirection> := None;
      if x < z.left {
        direction := Some(KoLeft);
      } else if x > z.right {
        direction := Some(KoRight);
      } else if y < z.top {
        direction := Some(KoTop);
      } else if y > z.bottom {
        direction := Some(KoBottom);
      }
      if direction.Some? && c.playerId !in koThisFrame {
        koThisFrame := koThisFrame[c.playerId := Ko(direction.value, x, y)];
      }
    }

    /** `check_combat_collisions`: both body slams, then each fighter's hitboxes against
        the other, player 1 first. */
    method CheckCombatCollisions(p1: Characters.Character, p2: Characters.Character, num: Numerics)
      requires p1 != p2
      modifies p1, p2
      ensures (p1.View(), p2.View()) == Combat(old(p1.View()), old(p2.View()), num)
    {
      ghost var (a1, d2) := SlamPass(p1.View(), p2.View(), num);
      ghost var (a2, d1) := SlamPass(d2, a1, num);
      SlamCheck(p1, p2, num);
      SlamCheck(p2, p1, num);
      assert (p1.View(), p2.View()) == BodySlams(old(p1.View()), old(p2.View()), num);
      ghost var (b1, b2) := Physics.HitboxPass(d1, a2, num);
      HitboxPass(p1, p2, num);
      assert p1.View() == b1 && p2.View() == b2;
      HitboxPass(p2, p1, num);
    }

    /** The body-slam test of one attacker: on contact the defender takes the slam's hit
        at -10 degrees, the attack ends and the attacker keeps a fifth of its speed. */
    method SlamCheck(a: Characters.Character, d: Characters.Character, num: Numerics)
      requires a != d
      modifies a, d
      ensures (a.View(), d.View()) == SlamPass(old(a.View()), old(d.View()), num)
    {
      ghost var a0 := a.View();
      ghost var d0 := d.View();
      if a.status.isAttacking && a.currentAttack.Some? && a.currentAttack.value.isBodySlam {
        if Collide(a.CollisionRect(), d.CollisionRect()) {
          ghost var atk := a0.currentAttack.value;
          assert SlamPass(a0, d0, num) ==
                 (SetVx(EndAttack(a0), EndAttack(a0).body.vx * SlamRecoil),
                  Physics.ApplyHit(atk.damage, atk.knockback, SlamAngle, a0.body.x, d0, num));
          SlamHit(a, d, num);
        } else {
          assert SlamPass(a0, d0, num) == (a0, d0);
        }
      } else {
        assert !InBodySlam(a0);
      }
    }

    /** A slam that connects: the defender takes the hit, the attack ends and the attacker
        keeps a fifth of its speed. */
    method SlamHit(a: Characters.Character, d: Characters.Character, num: Numerics)
      requires a != d && a.currentAttack.Some?
      modifies a, d
      ensures var atk := old(a.currentAttack.value);
              d.View() == Physics.ApplyHit(atk.damage, atk.knockback, SlamAngle, old(a.body.x), old(d.View()), num) &&
              a.View() == SetVx(EndAttack(old(a.View())), EndAttack(old(a.View())).body.vx * SlamRecoil)
    {
      var atk := a.currentAttack.value;
      ApplyHit(atk.damage, atk.knockback, SlamAngle, a.body.x, d, num);
      a.EndAttack();
      a.body := a.body.(vx := a.body.vx * SlamRecoil);
    }

    /** `apply_hit`: the force split by the angle, horizontally away from the attacker. */
    method ApplyHit(damage: int, knockback: int, angle: int, attackerX: real, target: Characters.Character, num: Numerics)
      modifies target
      ensures target.View() == Physics.ApplyHit(damage, knockback, angle, attackerX, old(target.View()), num)
    {
      var direction := if attackerX < target.body.x then 1.0 else -1.0;
      var knockbackX := direction * knockback as real * Abs(num.cosDeg(angle));
      var knockbackY := -(knockback as real) * num.sinDeg(angle);
      assert knockbackX == KnockbackX(attackerX, target.body.x, knockback, angle, num);
      assert knockbackY == KnockbackY(knockback, angle, num);
      target.TakeDamage(damage as real, knockbackX, knockbackY, num);
    }

    /** The hitbox loop of one attacker: every box in list order against the defender,
        the flagged ones removed after the loop. */
    method HitboxPass(a: Characters.Character, d: Characters.Character, num: Numerics)
      requires a != d
      modifies a, d
      ensures (a.View(), d.View()) == Physics.HitboxPass(old(a.View()), old(d.View()), num)
    {
      var boxes := a.hitboxes;
      var frame := a.status.attackFrames;
      var attackerX := a.body.x;
      ghost var d0 := d.View();
      var out: seq<Hitbox> := [];
      var remove: seq<bool> := [];
      for i := 0 to |boxes|
        invariant BoxPass(attackerX, frame, boxes[..i], d0, num) == PassResult(out, remove, d.View())
        invariant a.View() == old(a.View())
      {
        var box, drop := BoxStep(attackerX, frame, boxes[i], d, num);
        assert boxes[..i + 1][..i] == boxes[..i];
        out := out + [box];
        remove := remove + [drop];
      }
      assert boxes[..|boxes|] == boxes;
      var kept := Characters.Character.RemoveFlagged(out, remove);
      a.hitboxes := kept;
    }

    /** One box against the defender: aging, the expiry test, and the single- or
        multi-hit rule on contact. */
    method BoxStep(attackerX: real, frame: int, h: Hitbox, d: Characters.Character, num: Numerics)
      returns (box: Hitbox, drop: bool)
      modifies d
      ensures BoxOutcome(box, drop, d.View()) == Physics.BoxStep(attackerX, frame, h, old(d.View()), num)
    {
      box := AgeBox(h);
      if Expired(box) {
        return box, true;
      }
      drop := false;
      if Collide(BoxRect(box), d.CollisionRect()) {
        if box.isMultihit {
          if frame - box.lastHitFrame >= box.hitInterval {
            ApplyHit(box.damage, box.knockback, box.angle, attackerX, d, num);
            box := box.(lastHitFrame := frame);
          }
        } else {
          ApplyHit(box.damage, box.knockback, box.angle, attackerX, d, num);
          drop := true;
        }
      }
    }
  }
}
