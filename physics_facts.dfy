/** Properties of the resolver: fall-speed caps, sub-step length, the landing band and
    the first-platform rule, the KO map, the knockback direction, the hit rules of single-
    and multi-hit boxes, and the two tick-order effects: the Speedster's multi-hit boxes
    can never land, and the Warrior's projectiles advance twice per tick. */
module PhysicsFacts {
  import opened Common
  import opened Geometry
  import opened Moves
  import opened Fighters
  import opened Stages
  import opened Physics
  import FighterFacts
  import Input

  // ---------------------------------------------------------------- gravity

  /** On every stage an airborne fighter's fall speed ends at most 20 and grows while
      under the stage's cap; a grounded fighter's fall speed is untouched; position and
      flags never change. */
  lemma GravityCapsFall(s: StageView, b: Body)
    requires WellFormed(s)
    ensures var r := ApplyGravity(s, b);
            r == b.(vx := r.vx, vy := r.vy) &&
            (!b.onGround ==> r.vy <= TerminalVelocity) &&
            (!b.onGround && b.vy <= 15.0 ==> r.vy > b.vy) &&
            (b.onGround ==> r.vy == b.vy)
  {
    if !s.kind.BaseStage? && !b.onGround {
      StageGravityCapsFall(s, b);
    }
  }

  // ---------------------------------------------------------------- sub-steps

  /** The count exceeds a tenth of the longer axis. */
  lemma CountCoversMove(dx: real, dy: real)
    ensures Max(Abs(dx), Abs(dy)) < SubstepLength * SubstepCount(dx, dy) as real
  {
    var m := Max(Abs(dx), Abs(dy));
    var k := (m / SubstepLength).Floor;
    assert m / SubstepLength < k as real + 1.0;
  }

  /** A share of a move cut into n > m/10 equal parts is below 10 and the parts add up. */
  lemma ShortShare(d: real, m: real, n: real)
    requires Abs(d) <= m && m < SubstepLength * n && n >= 1.0
    ensures Abs(d / n) < SubstepLength && (d / n) * n == d
  {
    var q := d / n;
    assert q * n == d;
    assert Abs(q) * n == Abs(d);
  }

  /** Every sub-step moves less than 10 along each axis, and together they cover the move. */
  lemma SubstepsShort(dx: real, dy: real)
    ensures var n := SubstepCount(dx, dy) as real;
            Abs(dx / n) < SubstepLength && Abs(dy / n) < SubstepLength &&
            (dx / n) * n == dx && (dy / n) * n == dy
  {
    var n := SubstepCount(dx, dy) as real;
    CountCoversMove(dx, dy);
    ShortShare(dx, Max(Abs(dx), Abs(dy)), n);
    ShortShare(dy, Max(Abs(dx), Abs(dy)), n);
  }

  // ---------------------------------------------------------------- landing

  /** A landing keeps the body in the band of the platform it landed on: a falling body
      is put on the top with its fall stopped, a rising or resting one only stands. */
  lemma LandStaysOnPlatform(b: Body, p: Platform)
    requires OnPlatform(b, p)
    ensures var r := Land(b, p);
            OnPlatform(r, p) && r.onGround && r.x == b.x && r.vx == b.vx &&
            (b.vy > 0.0 ==> r.y == p.y && r.vy == 0.0) &&
            (b.vy <= 0.0 ==> r == b.(onGround := true))
  {
  }

  /** The platform chosen is exactly the first one, in list order, whose band holds the
      body. */
  lemma FirstLandingIsFirst(b: Body, ps: seq<Platform>, k: nat)
    ensures FirstLanding(b, ps) == Some(k) <==>
            k < |ps| && OnPlatform(b, ps[k]) && forall j :: 0 <= j < k ==> !OnPlatform(b, ps[j])
  {
  }

  /** What a fighter keeps through the resolver's movement and a hit: the fields the
      combat phase reads from the attacker. */
  predicate CombatFieldsKept(f: Fighter, g: Fighter)
  {
    g.archetype == f.archetype && g.playerId == f.playerId && g.hitboxes == f.hitboxes &&
    g.currentAttack == f.currentAttack && g.status.attackFrames == f.status.attackFrames &&
    g.status.isAttacking == f.status.isAttacking && g.heavy == f.heavy
  }

  /** The platform test lands the fighter iff some platform's band holds it, on the
      first such platform; otherwise it is airborne, FALLING unless it is rising, and
      its position and velocity are untouched. The platform's kind plays no part. */
  lemma StageCollisionFacts(f: Fighter, ps: seq<Platform>)
    ensures var r := StageCollision(f, ps);
            (r.body.onGround <==> exists i :: 0 <= i < |ps| && OnPlatform(f.body, ps[i])) &&
            (forall k :: 0 <= k < |ps| && OnPlatform(f.body, ps[k]) && (forall j :: 0 <= j < k ==> !OnPlatform(f.body, ps[j])) ==>
                r == f.(body := Land(f.body, ps[k]))) &&
            (!r.body.onGround ==> r.body == f.body.(onGround := false)) &&
            (!r.body.onGround && f.body.vy >= 0.0 ==> r.status.state == Falling) &&
            (!r.body.onGround && f.body.vy < 0.0 ==> r.status == f.status) &&
            CombatFieldsKept(f, r) && r.damagePercent == f.damagePercent && r.lives == f.lives
  {
    var r := StageCollision(f, ps);
    match FirstLanding(f.body, ps)
    case Some(i) =>
      forall k | 0 <= k < |ps| && OnPlatform(f.body, ps[k]) && (forall j :: 0 <= j < k ==> !OnPlatform(f.body, ps[j]))
        ensures r == f.(body := Land(f.body, ps[k]))
      {
        FirstLandingIsFirst(f.body, ps, k);
      }
    case None =>
      var g := f.(body := f.body.(onGround := false));
      if g.body.vy >= 0.0 {
        FighterFacts.ChangeStateFacts(g, Falling);
      }
  }

  // ---------------------------------------------------------------- blast zones

  /** No KO exactly inside the bounds; a reported zone is the first violated one in the
      order left, right, top, bottom. */
  lemma BlastKoOrder(x: real, y: real, z: BlastZones)
    ensures BlastKo(x, y, z).None? <==> InsideBlastZones(x, y, z)
    ensures BlastKo(x, y, z) == Some(KoLeft) <==> x < z.left
    ensures BlastKo(x, y, z) == Some(KoRight) <==> z.left <= x && x > z.right
    ensures BlastKo(x, y, z) == Some(KoTop) <==> z.left <= x <= z.right && y < z.top
    ensures BlastKo(x, y, z) == Some(KoBottom) <==> z.left <= x <= z.right && z.top <= y && y > z.bottom
  {
  }

  /** A sub-step keeps who the fighter is and what the combat phase reads. */
  lemma SubstepKeeps(f: Fighter, sx: real, sy: real, s: StageView)
    ensures CombatFieldsKept(f, Substep(f, sx, sy, s))
  {
    StageCollisionFacts(f.(body := f.body.(x := f.body.x + sx, y := f.body.y + sy)), s.platforms);
  }

  /** The sub-steps add to the KO map only the fighter's own entry, only when it has none,
      and then with the first sub-step that ended outside the blast zones. */
  lemma {:induction false} SubstepsRecordFirstKo(f: Fighter, sx: real, sy: real, n: nat, s: StageView, kos: map<int, Ko>)
    ensures Substeps(f, sx, sy, n, s, kos).1 == AddFirst(kos, f.playerId, FirstKo(f, sx, sy, n, s))
    ensures CombatFieldsKept(f, Substeps(f, sx, sy, n, s, kos).0)
    decreases n
  {
    if n > 0 {
      var g := Substep(f, sx, sy, s);
      SubstepKeeps(f, sx, sy, s);
      var kos' := RecordKo(kos, g.playerId, g.body.x, g.body.y, s.blast);
      SubstepsRecordFirstKo(g, sx, sy, n - 1, s, kos');
    }
  }

  /** The KO, if any, of one fighter's movement this tick. */
  function TickKo(f: Fighter, dt: real, s: StageView): Option<Ko>
    requires WellFormed(s)
  {
    var g := Fall(f, s);
    var dx := Movement(g.body.vx, dt);
    var dy := Movement(g.body.vy, dt);
    var n := SubstepCount(dx, dy);
    FirstKo(g, dx / n as real, dy / n as real, n, s)
  }

  /** One fighter's movement adds at most its own first KO and keeps what combat reads. */
  lemma CharacterPhysicsFacts(f: Fighter, dt: real, s: StageView, kos: map<int, Ko>)
    requires WellFormed(s)
    ensures CharacterPhysics(f, dt, s, kos).1 == AddFirst(kos, f.playerId, TickKo(f, dt, s))
    ensures CombatFieldsKept(f, CharacterPhysics(f, dt, s, kos).0)
  {
    var g := Fall(f, s);
    var dx := Movement(g.body.vx, dt);
    var dy := Movement(g.body.vy, dt);
    var n := SubstepCount(dx, dy);
    SubstepsRecordFirstKo(g, dx / n as real, dy / n as real, n, s, kos);
  }

  /** The tick's KO map holds an entry for a player exactly when its movement crossed a
      blast zone, with the first crossing, and no other entries. */
  lemma StepKoMap(p1: Fighter, p2: Fighter, s: StageView, dt: real, num: Numerics)
    requires WellFormed(s) && p1.playerId != p2.playerId
    ensures var kos := Step(p1, p2, s, dt, num).2;
            kos.Keys <= {p1.playerId, p2.playerId} &&
            (p1.playerId in kos <==> TickKo(p1, dt, s).Some?) &&
            (p1.playerId in kos ==> kos[p1.playerId] == TickKo(p1, dt, s).value) &&
            (p2.playerId in kos <==> TickKo(p2, dt, s).Some?) &&
            (p2.playerId in kos ==> kos[p2.playerId] == TickKo(p2, dt, s).value)
  {
    var (q1, k1) := CharacterPhysics(p1, dt, s, map[]);
    CharacterPhysicsFacts(p1, dt, s, map[]);
    CharacterPhysicsFacts(p2, dt, s, k1);
  }

  // ---------------------------------------------------------------- hits

  /** A hit keeps what the combat phase reads of the fighter it lands on, and its
      position. */
  lemma TakeDamageKeeps(f: Fighter, damage: real, kbx: real, kby: real, num: Numerics)
    ensures var r := TakeDamage(f, damage, kbx, kby, num);
            CombatFieldsKept(f, r) && r.body.x == f.body.x && r.body.y == f.body.y
  {
    if !(f.archetype == Heavy && f.heavy.hasSuperArmor) && !Invincible(f) {
      FighterFacts.ChangeStateFacts(Hit(f, damage, kbx, kby, num), HitStun);
    }
  }

  /** An invincible defender without armor is untouched by any hit. */
  lemma InvincibleIgnoresHits(damage: int, knockback: int, angle: int, attackerX: real, d: Fighter, num: Numerics)
    requires Invincible(d) && !(d.archetype == Heavy && d.heavy.hasSuperArmor)
    ensures ApplyHit(damage, knockback, angle, attackerX, d, num) == d
  {
  }

  /** A positive factor keeps the sign of a push. */
  lemma ScaledPush(k: real, c: real)
    requires c > 0.0
    ensures k > 0.0 ==> k * c > 0.0
    ensures k < 0.0 ==> k * c < 0.0
  {
  }

  /** At a non-negative percent the knockback scale is at least 1. */
  lemma ScaleAtLeastOne(dp: real, num: Numerics)
    requires dp >= 0.0 && forall x :: num.pow15(x) >= 0.0
    ensures KnockbackScale(dp, num) >= 1.0
  {
  }

  /** An unprotected fighter hit at a non-negative percent moves further the way the
      horizontal knockback points. */
  lemma LaunchSign(f: Fighter, damage: real, kbx: real, kby: real, num: Numerics)
    requires !Invincible(f) && damage >= 0.0 && f.damagePercent >= 0.0
    requires forall x :: num.pow15(x) >= 0.0
    ensures kbx > 0.0 ==> BaseTakeDamage(f, damage, kbx, kby, num).body.vx > f.body.vx
    ensures kbx < 0.0 ==> BaseTakeDamage(f, damage, kbx, kby, num).body.vx < f.body.vx
  {
    var r := BaseTakeDamage(f, damage, kbx, kby, num);
    FighterFacts.HitLaunches(f, damage, kbx, kby, num);
    var m := KnockbackScale(r.damagePercent, num);
    ScaleAtLeastOne(r.damagePercent, num);
    ScaledPush(kbx, m);
    DividedPush(kbx * m, Weight(f.archetype));
  }

  /** Dividing by a positive weight keeps the sign. */
  lemma DividedPush(k: real, w: real)
    requires w > 0.0
    ensures k > 0.0 ==> k / w > 0.0
    ensures k < 0.0 ==> k / w < 0.0
  {
  }

  /** A hit with positive knockback at an angle off the vertical pushes an unprotected
      defender away from the attacker: rightwards iff the attacker stands to its left. */
  lemma HitPushesAway(damage: int, knockback: int, angle: int, attackerX: real, d: Fighter, num: Numerics)
    requires !Invincible(d) && !(d.archetype == Heavy && d.heavy.hasSuperArmor)
    requires knockback > 0 && num.cosDeg(angle) != 0.0 && damage >= 0 && d.damagePercent >= 0.0
    requires forall x :: num.pow15(x) >= 0.0
    ensures var r := ApplyHit(damage, knockback, angle, attackerX, d, num);
            (attackerX < d.body.x ==> r.body.vx > d.body.vx) &&
            (attackerX >= d.body.x ==> r.body.vx < d.body.vx)
  {
    var dir := Direction(attackerX, d.body.x);
    var kbx := KnockbackX(attackerX, d.body.x, knockback, angle, num);
    var kby := KnockbackY(knockback, angle, num);
    assert ApplyHit(damage, knockback, angle, attackerX, d, num) == BaseTakeDamage(d, damage as real, kbx, kby, num);
    assert (attackerX < d.body.x ==> kbx > 0.0) && (attackerX >= d.body.x ==> kbx < 0.0) by {
      SignedKnockback(dir, knockback as real, Abs(num.cosDeg(angle)));
    }
    LaunchSign(d, damage as real, kbx, kby, num);
  }

  /** The horizontal knockback has the sign of the direction. */
  lemma SignedKnockback(dir: real, k: real, c: real)
    requires dir == 1.0 || dir == -1.0
    requires k > 0.0 && c > 0.0
    ensures dir == 1.0 ==> dir * k * c > 0.0
    ensures dir == -1.0 ==> dir * k * c < 0.0
  {
    ScaledPush(k, c);
  }

  /** A body slam that connects ends the slam, so it lands once; outside the ground pound
      the attack is over and the attacker keeps a fifth of its speed. */
  lemma SlamHitsOnce(a: Fighter, d: Fighter, num: Numerics)
    requires InBodySlam(a) && Collide(CollisionRect(a), CollisionRect(d))
    requires !(a.archetype == Heavy && a.heavy.isGroundPounding)
    ensures var (a', d') := SlamPass(a, d, num);
            !InBodySlam(a') && a'.currentAttack.None? && a'.body.vx == a.body.vx * SlamRecoil &&
            d' == ApplyHit(a.currentAttack.value.damage, a.currentAttack.value.knockback, SlamAngle, a.body.x, d, num) &&
            forall e :: SlamPass(a', e, num) == (a', e)
  {
  }

  /** A slam pass leaves an attacker that is not slamming alone, and leaves the defender
      what combat reads. */
  lemma SlamPassKeeps(a: Fighter, d: Fighter, num: Numerics)
    ensures !InBodySlam(a) ==> SlamPass(a, d, num).0 == a
    ensures CombatFieldsKept(d, SlamPass(a, d, num).1)
  {
    if InBodySlam(a) && Collide(CollisionRect(a), CollisionRect(d)) {
      var atk := a.currentAttack.value;
      TakeDamageKeeps(d, atk.damage as real, KnockbackX(a.body.x, d.body.x, atk.knockback, SlamAngle, num),
                      KnockbackY(atk.knockback, SlamAngle, num), num);
    }
  }

  // ---------------------------------------------------------------- hitbox rules

  /** Landing a hit from a box keeps what combat reads of the defender. */
  lemma ApplyHitKeeps(damage: int, knockback: int, angle: int, attackerX: real, d: Fighter, num: Numerics)
    ensures CombatFieldsKept(d, ApplyHit(damage, knockback, angle, attackerX, d, num))
  {
    TakeDamageKeeps(d, damage as real, KnockbackX(attackerX, d.body.x, knockback, angle, num),
                    KnockbackY(knockback, angle, num), num);
  }

  /** A box that came out of the pass as `b` from `h`: aged, with a new hit frame at most,
      and exactly aged when it is a single-hit box. */
  predicate AgedFrom(b: Hitbox, h: Hitbox)
  {
    b == AgeBox(h).(lastHitFrame := b.lastHitFrame) && (!h.isMultihit ==> b == AgeBox(h))
  }

  /** The removal flag of a box: set when it expired, and for a multi-hit box only then. */
  predicate FlagRule(r: bool, h: Hitbox)
  {
    (h.isMultihit ==> (r <==> Expired(AgeBox(h)))) && (Expired(AgeBox(h)) ==> r)
  }

  /** The rules for one box: an expired box is removed without a test; a single-hit box
      that touches the defender hits it and is removed; a multi-hit box is never removed
      before it expires, and it leaves the defender alone until it is due. */
  lemma BoxRules(attackerX: real, frame: int, h: Hitbox, d: Fighter, num: Numerics)
    ensures var o := BoxStep(attackerX, frame, h, d, num);
            var g := AgeBox(h);
            (Expired(g) ==> o == BoxOutcome(g, true, d)) &&
            (!Expired(g) && !h.isMultihit && Collide(BoxRect(g), CollisionRect(d)) ==>
               o.remove && o.defender == ApplyHit(h.damage, h.knockback, h.angle, attackerX, d, num)) &&
            (!Collide(BoxRect(g), CollisionRect(d)) ==> o.defender == d) &&
            (h.isMultihit ==> (o.remove <==> Expired(g))) &&
            (h.isMultihit && !Due(h, frame) ==> o == BoxOutcome(g, Expired(g), d)) &&
            AgedFrom(o.box, h) && FlagRule(o.remove, h) &&
            CombatFieldsKept(d, o.defender)
  {
    var g := AgeBox(h);
    if !Expired(g) && Collide(BoxRect(g), CollisionRect(d)) {
      ApplyHitKeeps(g.damage, g.knockback, g.angle, attackerX, d, num);
    }
  }

  /** Over a whole pass every box comes out aged, single-hit boxes only aged, and every
      flag follows the removal rule. */
  lemma {:induction false} PassAgesBoxes(attackerX: real, frame: int, boxes: seq<Hitbox>, d: Fighter, num: Numerics)
    ensures var p := BoxPass(attackerX, frame, boxes, d, num);
            (forall i :: 0 <= i < |boxes| ==> AgedFrom(p.boxes[i], boxes[i])) &&
            (forall i :: 0 <= i < |boxes| ==> FlagRule(p.remove[i], boxes[i]))
    decreases |boxes|
  {
    if |boxes| > 0 {
      var init := boxes[..|boxes| - 1];
      var p := BoxPass(attackerX, frame, init, d, num);
      PassAgesBoxes(attackerX, frame, init, d, num);
      var o := BoxStep(attackerX, frame, boxes[|boxes| - 1], p.defender, num);
      BoxRules(attackerX, frame, boxes[|boxes| - 1], p.defender, num);
      var q := BoxPass(attackerX, frame, boxes, d, num);
      assert q.boxes == p.boxes + [o.box] && q.remove == p.remove + [o.remove];
      forall i | 0 <= i < |boxes|
        ensures AgedFrom(q.boxes[i], boxes[i]) && FlagRule(q.remove[i], boxes[i])
      {
        if i < |init| {
          assert boxes[i] == init[i] && q.boxes[i] == p.boxes[i] && q.remove[i] == p.remove[i];
        }
      }
    }
  }

  /** The defender comes out of a pass with what combat reads of it unchanged. */
  lemma {:induction false} PassKeepsDefender(attackerX: real, frame: int, boxes: seq<Hitbox>, d: Fighter, num: Numerics)
    ensures CombatFieldsKept(d, BoxPass(attackerX, frame, boxes, d, num).defender)
    decreases |boxes|
  {
    if |boxes| > 0 {
      var init := boxes[..|boxes| - 1];
      var p := BoxPass(attackerX, frame, init, d, num);
      PassKeepsDefender(attackerX, frame, init, d, num);
      BoxRules(attackerX, frame, boxes[|boxes| - 1], p.defender, num);
    }
  }

  /** Multi-hit boxes none of which is due leave the defender exactly as it was. */
  lemma {:induction false} NotDueBoxesHarmless(attackerX: real, frame: int, boxes: seq<Hitbox>, d: Fighter, num: Numerics)
    requires forall b :: b in boxes ==> b.isMultihit && !Due(b, frame)
    ensures BoxPass(attackerX, frame, boxes, d, num).defender == d
    decreases |boxes|
  {
    if |boxes| > 0 {
      var init := boxes[..|boxes| - 1];
      NotDueBoxesHarmless(attackerX, frame, init, d, num);
      BoxRules(attackerX, frame, boxes[|boxes| - 1], d, num);
    }
  }

  // ---------------------------------------------------------------- tick order

  /** Between a fighter's own update and its hitbox pass, player 1 keeps what combat
      reads, unless it is the one slamming. */
  lemma FirstAttackerKeeps(g: Fighter, p2: Fighter, s: StageView, dt: real, num: Numerics)
    requires WellFormed(s) && !InBodySlam(g)
    ensures var (q1, q2, kos) := Motion(g, p2, s, dt);
            CombatFieldsKept(g, BodySlams(q1, q2, num).0)
  {
    var (q1, k1) := CharacterPhysics(g, dt, s, map[]);
    CharacterPhysicsFacts(g, dt, s, map[]);
    var (q2, k2) := CharacterPhysics(p2, dt, s, k1);
    var (a1, d2) := SlamPass(q1, q2, num);
    SlamPassKeeps(q1, q2, num);
    SlamPassKeeps(d2, a1, num);
  }

  /** Player 2's hitbox pass comes after both body-slam passes and player 1's boxes; up to
      it, player 2 keeps what combat reads, unless it is the one slamming. */
  lemma SecondAttackerKeeps(p1: Fighter, g: Fighter, s: StageView, dt: real, num: Numerics)
    requires WellFormed(s) && !InBodySlam(g)
    ensures var (q1, q2, kos) := Motion(p1, g, s, dt);
            var (a1, a2) := BodySlams(q1, q2, num);
            CombatFieldsKept(g, a2) && CombatFieldsKept(g, HitboxPass(a1, a2, num).1)
  {
    var (q1, k1) := CharacterPhysics(p1, dt, s, map[]);
    var (q2, k2) := CharacterPhysics(g, dt, s, k1);
    CharacterPhysicsFacts(g, dt, s, k1);
    var (a1, d2) := SlamPass(q1, q2, num);
    SlamPassKeeps(q1, q2, num);
    SlamPassKeeps(d2, a1, num);
    assert BodySlams(q1, q2, num).1 == d2;
    PassKeepsDefender(a1.body.x, a1.status.attackFrames, a1.hitboxes, d2, num);
  }

  /** The Speedster's own update re-arms every multi-hit box it holds before the resolver
      runs, so when the Speedster's boxes meet the other fighter none of its multi-hit
      boxes is due: whoever they touch, they never land. */
  lemma SpeedsterMultihitNeverLands(f: Fighter, pad: Input.Pad, dt: real, p2: Fighter, s: StageView, num: Numerics)
    requires f.archetype == Speedster && Consistent(f) && dt >= 0.0 && WellFormed(s)
    requires Update(f, pad, dt).Ok? && !InBodySlam(Update(f, pad, dt).value)
    ensures var g := Update(f, pad, dt).value;
            var (q1, q2, kos) := Motion(g, p2, s, dt);
            var a1 := BodySlams(q1, q2, num).0;
            a1.hitboxes == g.hitboxes &&
            forall b, d :: b in a1.hitboxes && b.isMultihit ==>
              BoxStep(a1.body.x, a1.status.attackFrames, b, d, num) == BoxOutcome(AgeBox(b), Expired(AgeBox(b)), d)
  {
    var g := Update(f, pad, dt).value;
    FighterFacts.SpeedsterMultihitGap(f, pad, dt);
    FirstAttackerKeeps(g, p2, s, dt, num);
    var (q1, q2, kos) := Motion(g, p2, s, dt);
    var a1 := BodySlams(q1, q2, num).0;
    forall b, d | b in a1.hitboxes && b.isMultihit
      ensures BoxStep(a1.body.x, a1.status.attackFrames, b, d, num) == BoxOutcome(AgeBox(b), Expired(AgeBox(b)), d)
    {
      BoxRules(a1.body.x, a1.status.attackFrames, b, d, num);
    }
  }

  /** The same as player 2: its pass runs last, after player 1's boxes have hit it, and
      still none of its multi-hit boxes is due. */
  lemma SpeedsterMultihitNeverLandsAsPlayer2(f: Fighter, pad: Input.Pad, dt: real, p1: Fighter, s: StageView,
                                             num: Numerics)
    requires f.archetype == Speedster && Consistent(f) && dt >= 0.0 && WellFormed(s)
    requires Update(f, pad, dt).Ok? && !InBodySlam(Update(f, pad, dt).value)
    ensures var g := Update(f, pad, dt).value;
            var (q1, q2, kos) := Motion(p1, g, s, dt);
            var (a1, a2) := BodySlams(q1, q2, num);
            var b2 := HitboxPass(a1, a2, num).1;
            b2.hitboxes == g.hitboxes &&
            forall b, d :: b in b2.hitboxes && b.isMultihit ==>
              BoxStep(b2.body.x, b2.status.attackFrames, b, d, num) == BoxOutcome(AgeBox(b), Expired(AgeBox(b)), d)
  {
    var g := Update(f, pad, dt).value;
    FighterFacts.SpeedsterMultihitGap(f, pad, dt);
    SecondAttackerKeeps(p1, g, s, dt, num);
    var (q1, q2, kos) := Motion(p1, g, s, dt);
    var (a1, a2) := BodySlams(q1, q2, num);
    var b2 := HitboxPass(a1, a2, num).1;
    forall b, d | b in b2.hitboxes && b.isMultihit
      ensures BoxStep(b2.body.x, b2.status.attackFrames, b, d, num) == BoxOutcome(AgeBox(b), Expired(AgeBox(b)), d)
    {
      BoxRules(b2.body.x, b2.status.attackFrames, b, d, num);
    }
  }

  /** A box the Warrior's update moved, then the resolver moved again. */
  predicate SteppedTwice(b: Hitbox, before: seq<Hitbox>)
  {
    exists b0 :: b0 in before && b0.isProjectile && b == ProjectileStep(ProjectileStep(b0))
  }

  /** Every projectile left after `update_projectiles` is one step on from one before it. */
  lemma UpdatedProjectileStepped(h: Fighter, c: Hitbox)
    requires c in UpdateProjectiles(h).hitboxes && c.isProjectile
    ensures exists b0 :: b0 in h.hitboxes && b0.isProjectile && c == ProjectileStep(b0)
  {
    var stepped := StepProjectiles(h.hitboxes);
    assert c in stepped;
    var j :| 0 <= j < |stepped| && stepped[j] == c;
    assert h.hitboxes[j].isProjectile;
    assert h.hitboxes[j] in h.hitboxes;
  }

  /** Every single-hit projectile the attacker keeps after its pass is one step on from
      a projectile it held before. */
  lemma PassedProjectileStepped(a: Fighter, d: Fighter, num: Numerics, b: Hitbox)
    requires b in HitboxPass(a, d, num).0.hitboxes && b.isProjectile && !b.isMultihit
    ensures exists c :: c in a.hitboxes && c.isProjectile && b == ProjectileStep(c)
  {
    var p := BoxPass(a.body.x, a.status.attackFrames, a.hitboxes, d, num);
    PassAgesBoxes(a.body.x, a.status.attackFrames, a.hitboxes, d, num);
    assert b in p.boxes;
    var i :| 0 <= i < |p.boxes| && p.boxes[i] == b;
    assert a.hitboxes[i] in a.hitboxes;
  }

  /** The Warrior's update moves each projectile one step and the resolver moves it a
      second time in the same tick: every single-hit projectile player 1 still holds
      after its pass is one it held before its update, advanced by twice its velocity
      with two frames less lifetime. */
  lemma WarriorProjectileTwice(f: Fighter, pad: Input.Pad, dt: real, p2: Fighter, s: StageView, num: Numerics)
    requires f.archetype == Warrior && WellFormed(s)
    requires Update(f, pad, dt).Ok? && !InBodySlam(Update(f, pad, dt).value)
    ensures var g := Update(f, pad, dt).value;
            var (q1, q2, kos) := Motion(g, p2, s, dt);
            var (a1, a2) := BodySlams(q1, q2, num);
            var b1 := HitboxPass(a1, a2, num).0;
            forall b :: b in b1.hitboxes && b.isProjectile && !b.isMultihit ==>
              SteppedTwice(b, BaseUpdate(f, pad, dt).value.hitboxes)
  {
    var h := BaseUpdate(f, pad, dt).value;
    var g := Update(f, pad, dt).value;
    assert g == UpdateProjectiles(h);
    FirstAttackerKeeps(g, p2, s, dt, num);
    var (q1, q2, kos) := Motion(g, p2, s, dt);
    var (a1, a2) := BodySlams(q1, q2, num);
    var b1 := HitboxPass(a1, a2, num).0;
    forall b | b in b1.hitboxes && b.isProjectile && !b.isMultihit
      ensures SteppedTwice(b, h.hitboxes)
    {
      PassedProjectileStepped(a1, a2, num, b);
      var c :| c in a1.hitboxes && c.isProjectile && b == ProjectileStep(c);
      UpdatedProjectileStepped(h, c);
      var b0 :| b0 in h.hitboxes && b0.isProjectile && c == ProjectileStep(b0);
      assert b == ProjectileStep(ProjectileStep(b0));
    }
  }

  /** The same as player 2: every single-hit projectile player 2 still holds after its
      own pass, which runs last, is one it held before its update, moved twice. */
  lemma WarriorProjectileTwiceAsPlayer2(f: Fighter, pad: Input.Pad, dt: real, p1: Fighter, s: StageView, num: Numerics)
    requires f.archetype == Warrior && WellFormed(s)
    requires Update(f, pad, dt).Ok? && !InBodySlam(Update(f, pad, dt).value)
    ensures var g := Update(f, pad, dt).value;
            var (q1, q2, kos) := Motion(p1, g, s, dt);
            var (a1, a2) := BodySlams(q1, q2, num);
            var (b1, b2) := HitboxPass(a1, a2, num);
            var c2 := HitboxPass(b2, b1, num).0;
            forall b :: b in c2.hitboxes && b.isProjectile && !b.isMultihit ==>
              SteppedTwice(b, BaseUpdate(f, pad, dt).value.hitboxes)
  {
    var h := BaseUpdate(f, pad, dt).value;
    var g := Update(f, pad, dt).value;
    assert g == UpdateProjectiles(h);
    SecondAttackerKeeps(p1, g, s, dt, num);
    var (q1, q2, kos) := Motion(p1, g, s, dt);
    var (a1, a2) := BodySlams(q1, q2, num);
    var (b1, b2) := HitboxPass(a1, a2, num);
    var c2 := HitboxPass(b2, b1, num).0;
    forall b | b in c2.hitboxes && b.isProjectile && !b.isMultihit
      ensures SteppedTwice(b, h.hitboxes)
    {
      PassedProjectileStepped(b2, b1, num, b);
      var c :| c in b2.hitboxes && c.isProjectile && b == ProjectileStep(c);
      UpdatedProjectileStepped(h, c);
      var b0 :| b0 in h.hitboxes && b0.isProjectile && c == ProjectileStep(b0);
      assert b == ProjectileStep(ProjectileStep(b0));
    }
  }
}
