# Fixed-step fight simulation of a two-player platform fighter

This project models, in Dafny, the deterministic core of a pygame platform fighter. That core is
the simulation a match advances once per fixed tick, together with the small state machines
around it. The model has these parts:

- **Fighters** (`fighters.dfy`, `moves.dfy`, `character.dfy`, `fighter_facts.dfy`):
  - A `Character` holds timers, a movement state machine and an attack lock.
  - An attack runs through startup, active and recovery frames, and spawns its hitbox on the first active frame.
  - `take_damage` adds percent and applies scaled knockback and hitstun.
  - Each archetype has its extras: the Warrior's projectiles; the Speedster's cooldowns, flight, dash friction, speed buff and multi-hit boxes; the Heavy's super armor, power stance, ground pound and body slam.
  - One `Fighter` record with an archetype tag stands for the base class and its three subclasses.
  - The class `Characters.Character` updates its fields in place. Each of its methods is proved equal to a function on that record.
- **Physics and combat resolver** (`physics.dfy`, `physics_manager.dfy`, `physics_facts.dfy`):
  - gravity and friction;
  - movement cut into sub-steps of under 10 px, with the landing-band platform test after every one (first platform in list order wins) and the blast-zone test (first violated bound in the order left, right, top, bottom);
  - the per-tick KO map;
  - body slams, hitbox lifetimes, single-hit and multi-hit boxes, and the knockback direction rule.
- **Stages** (`stages.dfy`): the base stage's defaults and stubs, plus the Battlefield and Plains layouts and their gravity policies. The Plains wind is held in the stage value; the gusts that change it during a match are not modelled (see Left out).
- **Input** (`input.dfy`):
  - `PlayerInput`'s keyboard and joystick snapshots, edge detection, axes and the bounded history buffer;
  - attack-direction classification;
  - the `InputManager` queries.
- **Match bookkeeping** (`match.dfy`, `gameplay.dfy`): `GameplayState.update` in its fixed order:
  1. the clock;
  2. the respawn timers;
  3. the characters' updates;
  4. the resolver;
  5. blast-zone and damage KOs;
  6. the match-end check.

  It also covers `enter`, `ko_player`, `respawn_player` and the results record.
- **Screens and engine** (`flow.dfy`, `menu.dfy`, `character_select.dfy`, `stage_select.dfy`, `engine.dfy`, `win_screen.dfy`):
  - the state manager's screen changes;
  - the simple main menu, character select and stage select;
  - the fixed-timestep accumulator;
  - the win screen's `MM:SS` formatter.

Two kinds of code are modelled differently:

- **State-changing code** is a class with `modifies` clauses. Every method's postcondition ties the new state to a pure function of the old one.
- **Properties** are stated once, as lemmas about those functions.

The knockback curve's `** 1.5` and the `cos`/`sin` of `apply_hit` are not built in. They enter as a `Numerics` value holding three functions, and the lemmas assume only the facts they need about them.

## Model

| member | source | states |
|---|---|---|
| `Input.WasJustPressed` | src/input/input_manager.py:186-192 | a rising edge implies the action is held now and is not a falling edge |
| `Input.WasJustReleased` | src/input/input_manager.py:194-200 | a falling edge implies the action is not held now and was held in the previous frame |
| `Input.AttackDirectionOf` | src/input/input_manager.py:202-216 | special iff grab is held; up wins over down, which wins over left or right, else neutral; each class stated in both directions |
| `Input.KeyAxis` | src/input/input_manager.py:119-129 | the axis is -1, 0 or 1: -1 exactly when only the negative key is held, 1 exactly when only the positive key is held |
| `Input.PushFrame` | src/input/input_manager.py:131-134 | the newest frame is last, the buffer grows by at most one, it never exceeds 6 entries when it did not before, and it is the tail of old buffer plus frame |
| `Input.IsPressed` | src/input/input_manager.py:176-183 | an action is pressed when it is held in the current frame; `Input.WasJustPressed` is stated with it |
| `Input.KeyboardUpdate` | src/input/input_manager.py:103-134 | the previous frame is the old current one, the current frame is the keys read, both axes follow the key pairs, and the buffer is `PushFrame` of the old buffer with the new frame |
| `Input.DeadZone` | src/input/input_manager.py:148-152 | a stick reading below 0.5 in magnitude becomes 0, any other reading is kept |
| `Input.JoystickUpdate` | src/input/input_manager.py:136-169 | previous frame saved; each direction flag is exactly the strict ±0.5 test on its axis, so left and right (up and down) are never both held; both axes are `DeadZone` of the readings; buttons copied; the buffer is `PushFrame` of the old buffer with the new frame |
| `Input.Window` | src/input/input_manager.py:218-230 | the look-back window never exceeds the frames held; by default it is the buffer size (6) or every frame held if fewer, and an explicit count within the buffer is used as given |
| `Input.PlayerInput.constructor` | src/input/input_manager.py:81-101 | nothing held, empty buffer, zero axes, no joystick |
| `Input.PlayerInput.AssignJoystick` | src/input/input_manager.py:171-172 | a joystick is attached and no input state changes |
| `Input.PlayerInput.UnassignJoystick` | src/input/input_manager.py:174-175 | the joystick is detached and no input state changes |
| `Input.PlayerInput.Update` | src/input/input_manager.py:103-134 | the new snapshot is `KeyboardUpdate` of the old one; the buffer bound is kept |
| `Input.PlayerInput.UpdateFromJoystick` | src/input/input_manager.py:136-169 | with no joystick nothing changes, previous frame included; with one the snapshot is `JoystickUpdate` of the old one |
| `Input.PlayerInput.ApplyDeadZone` | src/input/input_manager.py:150-154 | the reading afterwards is `DeadZone` of the raw one: under 0.5 in magnitude it becomes 0 |
| `Input.PlayerInput.PushCurrent` | src/input/input_manager.py:166-169 | the history afterwards is `PushFrame` of the old history with the current frame; nothing else changes |
| `Input.PlayerInput.WasPressedInBuffer` | src/input/input_manager.py:218-230 | the loop answers whether the action is held in one of the newest `Window` frames; false on an empty buffer |
| `Input.WindowClamp` | src/input/input_manager.py:218-230 | asking for more frames than the buffer holds is the same as asking for exactly those frames |
| `Input.InputManager.constructor` | src/input/input_manager.py:249-304 | two distinct fresh player inputs, no joystick assigned to either player |
| `Input.InputManager.GetPlayerInput` | src/input/input_manager.py:413-422 | succeeds exactly for ids 1 and 2, returning that player's input; any other id is an error |
| `Input.InputManager.GetPlayerIdFromJoystick` | src/input/input_manager.py:424-432 | the answer is 1, 2 or none; 1 iff the stick is player 1's, 2 iff it is player 2's and not player 1's |
| `Input.InputManager.DetectSpecialMove` | src/input/input_manager.py:457-479 | an error for an unknown player; quarter circle forward holds iff down was held in the last 4 frames and right in the last 2, back uses left; any other pattern is false |
| `Geometry.RectAt` | src/characters/base_character.py:717-726 | the rectangle has the requested size and its corner is within one pixel of the real position (integer truncation) |
| `Geometry.Collide` | src/physics/physics_manager.py:713-721 | the strict overlap test of two rectangles with area; `PhysicsFacts.BoxRules` and `PhysicsFacts.SlamHitsOnce` are stated with it |
| `Moves.Descriptor` | src/characters/base_character.py:456-495 | every attack in the tables has startup and active of at least 1, non-negative recovery, damage and knockback; multi-hit attacks carry a positive interval; armor exactly on heavy punch and hammer slam; every archetype but the base one gives a range |
| `Moves.BaseAngle` | src/characters/base_character.py:820-829 | the base up attack launches upward, the base down attack spikes downward, every other attack is flat |
| `Moves.WarriorAngle` | src/characters/warrior.py:288-299 | only the rising slash and the sword thrust launch upward; nothing launches downward |
| `Moves.SpeedsterAngle` | src/characters/speedster.py:355-366 | only the tornado spin and the dash attack launch upward, by attack type alone |
| `Moves.HeavyAngle` | src/characters/heavy.py:268-279 | only the ground pound and the hammer slam launch upward |
| `Moves.MeleeBox` | src/characters/base_character.py:782-818 | a melee box is neither a projectile nor multi-hit, and has never hit |
| `Moves.BasicHitbox` | src/characters/base_character.py:782-818 | the base box is a single-hit melee box lasting the attack's active frames |
| `Moves.WarriorMelee` | src/characters/warrior.py:216-259 | the Warrior's melee box is not a projectile and lasts the attack's active frames |
| `Moves.WarriorProjectile` | src/characters/warrior.py:261-286 | the energy ball is a single-hit projectile |
| `Moves.SpeedsterHitbox` | src/characters/speedster.py:294-338 | the Speedster's box lasts the active frames and copies the descriptor's multi-hit flag and interval (default 1) |
| `Moves.HeavyHitbox` | src/characters/heavy.py:183-228 | the Heavy's box is a single-hit melee box lasting the active frames |
| `Moves.Shockwave` | src/characters/heavy.py:230-254 | the ground-pound shockwave is a single-hit melee box |
| `Moves.Weight` | src/characters/base_character.py:106 | every archetype has a positive weight |
| `Moves.JumpStrength` | src/characters/base_character.py:99 | 15 for the base fighter, 16 for the Warrior, Speedster and Heavy (src/characters/warrior.py:54, src/characters/speedster.py:64, src/characters/heavy.py:56); `FighterFacts.HeavyUpSpecial` uses it |
| `Moves.BaseWalk` | src/characters/base_character.py:90 | walk speed 8, the Speedster's 10 (src/characters/speedster.py:56); `Fighters.EndSpeedBoost` restores it |
| `Moves.BaseRun` | src/characters/base_character.py:91 | run speed 12, the Speedster's 16 (src/characters/speedster.py:57); `Fighters.EndSpeedBoost` restores it |
| `Moves.BaseAccel` | src/characters/base_character.py:92 | ground acceleration 1.2, the Speedster's 1.6 (src/characters/speedster.py:58); `Fighters.EndSpeedBoost` restores it |
| `Moves.HasBranch` | src/characters/base_character.py:456-495 | the four plain directions have a branch for everyone, `side_special` only for the Speedster; `Fighters.LoadMove` and `Fighters.PerformAttack` are stated with it |
| `Moves.AttackState` | src/characters/base_character.py:456-495 | the state each direction enters; `Fighters.LoadMove` states it is entered |
| `Fighters.NewFighter` | src/characters/base_character.py:75-157 | three lives, 0%, grounded, idle and able to act, no boxes, no attack; faces right iff player 1; satisfies the fighter invariant |
| `Fighters.ChangeState` | src/characters/base_character.py:415-440 | changing to the current state is a no-op; the target state is entered; only status and the ground flag can change |
| `Fighters.Countdown` | src/characters/speedster.py:372-379 | a frame counter drops by one while positive and is otherwise unchanged, so it never goes below zero |
| `Fighters.TickTimers` | src/characters/base_character.py:225-229 | hitstun and invincibility drop by `dt` clamped at 0, coyote time clamps at 0, respawn invincibility drops one frame, state time grows by `dt`; nothing else changes |
| `Fighters.Approach` | src/characters/base_character.py:347-367 | one acceleration step moves at most the limit toward the target without overshooting, and reaches it when it is within the limit |
| `Fighters.GroundTarget` | src/characters/base_character.py:336-345 | run speed once already above 80% of walk speed in the input direction, otherwise walk speed; `Fighters.GroundVelocity` moves toward it |
| `Fighters.AirTarget` | src/characters/base_character.py:377-390 | 80% of walk speed in the input direction; `Fighters.AirMovement` moves toward it |
| `Fighters.GroundVelocity` | src/characters/base_character.py:347-375 | with input, speed moves toward the target by at most the acceleration without overshoot; without input, a speed over 0.1 becomes -0.8 times itself, a smaller one 0 |
| `Fighters.GroundMovement` | src/characters/base_character.py:315-375 | the new speed is `GroundVelocity`; RUNNING above 1.2 times walk speed, WALKING between 0.5 and that; IDLE once stopped from walking or running; a new state always frees action |
| `Fighters.AirMovement` | src/characters/base_character.py:377-390 | with input, speed moves toward 80% of walk speed by at most the air acceleration without overshoot; without input a speed over 0.1 keeps 70%; only `vx` changes |
| `Fighters.JumpPower` | src/characters/base_character.py:283-293 | the short hop is chosen exactly when jump is not held, so a fresh press always gives the full jump strength |
| `Fighters.JumpAllowed` | src/characters/base_character.py:285-287 | a jump needs the ground or coyote time; `FighterFacts.JumpNeedsGround` proves only the ground counts |
| `Fighters.Jump` | src/characters/base_character.py:283-293 | a fresh press while allowed launches at minus the jump power, leaves the ground, spends coyote time and enters JUMPING; otherwise nothing changes |
| `Fighters.JumpCut` | src/characters/base_character.py:296-298 | releasing jump while rising in JUMPING halves the upward speed; otherwise nothing changes |
| `Fighters.Crouch` | src/characters/base_character.py:301-307 | down held on the ground means CROUCHING; releasing it leaves CROUCHING for IDLE; only the state machine moves |
| `Fighters.Face` | src/characters/base_character.py:260-270 | right held faces right, left alone faces left, neither keeps the facing; nothing else changes |
| `Fighters.HandleInput` | src/characters/base_character.py:253-313 | without a fresh attack press the result is the movement step; with one it is the attack request on top of it, with the classified direction |
| `Fighters.Move` | src/characters/base_character.py:253-307 | facing, ground or air movement by the ground flag, jump, jump cut and crouch, in that order; `FighterFacts.MoveConsistent` proves it keeps the invariant, the boxes, the attack and the archetype |
| `Fighters.AcceptsInput` | src/characters/base_character.py:236-237 | input is read only when the fighter can act and its hitstun has run out; `FighterFacts.InputGated` proves the pad is ignored otherwise |
| `Fighters.CooldownRejects` | src/characters/speedster.py:187-189 | the Speedster refuses a side attack, side special or up special while its cooldown runs, the Heavy an up special; `FighterFacts.RefusedSpecialLocks` proves a refused special on a fighter with nothing loaded leaves it locked |
| `Fighters.Lock` | src/characters/base_character.py:446-451 | the lock sets attacking, clears can-act and zeroes the frame counter; every other field of the fighter and of its status is unchanged |
| `Fighters.LoadMove` | src/characters/base_character.py:456-495 | a direction with a branch enters its attack state and loads its descriptor; one without changes nothing; lock and body untouched |
| `Fighters.SpeedsterMove` | src/characters/speedster.py:190-292 | the Speedster's request after the lock: `FighterFacts.SpeedsterMovePreserves` (boxes, lives, percent kept, speeds base or boosted) and `FighterFacts.SideSpecialLaunch` (side special at 18 facing-wise, 300-frame cooldown) |
| `Fighters.PoundLaunch` | src/characters/heavy.py:138-140 | the up special's launch; `FighterFacts.HeavyUpSpecial` proves it leaves the ground at 1.2 times the Heavy's jump strength, ground-pounding |
| `Fighters.StorePound` | src/characters/heavy.py:152-153 | the descriptor is kept for the landing and the cooldown starts; `FighterFacts.StorePoundKeeps` proves tuning, boxes, lives and percent kept |
| `Fighters.HeavyMove` | src/characters/heavy.py:100-173 | the Heavy's request after the lock; `Fighters.PerformAttack` states it fails exactly on an unbranched direction with no descriptor, `FighterFacts.HeavyMovePreserves`, `FighterFacts.HeavyUpSpecial` and `FighterFacts.ArmoredAttacks` state what it loads and arms |
| `Fighters.ActivateSuperArmor` | src/characters/heavy.py:175-181 | armor turns on with the given frame count and nothing else changes |
| `Fighters.PerformAttack` | src/characters/base_character.py:442-498 | refused unless able to act and not attacking; fails exactly for the Heavy on an unbranched direction with no descriptor; otherwise locks, loads the table's descriptor unless a cooldown refuses it, and a refused special stays locked |
| `Fighters.ApplySpeedBoost` | src/characters/speedster.py:340-353 | acts only when no buff is active; then the buff runs for the attack's duration with the boosted speeds |
| `Fighters.BoostedTuning` | src/characters/speedster.py:349-351 | walk and run speed times 1.5, ground acceleration times 1.3; `Fighters.ApplySpeedBoost` installs it |
| `Fighters.EndSpeedBoost` | src/characters/speedster.py:427-438 | the buff ends and the speeds are exactly the base ones |
| `Fighters.ApplyArmorStance` | src/characters/heavy.py:256-266 | stance and armor on for the stance duration, damage multiplier 0.5; only the Heavy fields change |
| `Fighters.EndPowerStance` | src/characters/heavy.py:329-337 | stance and armor off, multiplier back to 1.0; only the Heavy fields change |
| `Fighters.CreateAttackHitbox` | src/characters/base_character.py:782-818 | spawning a box changes no status, body, attack or ground-pound flag |
| `Fighters.AttackTiming` | src/characters/base_character.py:758-780 | startup leaves the fighter alone, the first active frame spawns the box once, the end of recovery ends the attack: `FighterFacts.StartupTick`, `FighterFacts.ActiveTick`, `FighterFacts.LastTick` and `FighterFacts.AttackTimingConsistent` |
| `Fighters.BaseEndAttack` | src/characters/base_character.py:831-846 | unlocks, clears the attack, and returns to IDLE on the ground or FALLING in the air; body untouched |
| `Fighters.EndAttack` | src/characters/heavy.py:339-346 | a Heavy waiting for its ground pound to land is left alone; every other fighter ends its attack |
| `Fighters.AttackStep` | src/characters/base_character.py:249-251 | a fighter not attacking is untouched; an attack still running has counted one more frame |
| `Fighters.UpdatePhysics` | src/characters/base_character.py:392-413 | a grounded FALLING fighter lands (LANDING, cannot act, can jump); coyote time never grows from zero; only body and status change |
| `Fighters.UpdateStateMachine` | src/characters/base_character.py:595-614 | LANDING ends after 0.2 s into IDLE; JUMPING becomes FALLING when descending; HIT_STUN with time left is untouched and without it frees action |
| `Fighters.BaseUpdate` | src/characters/base_character.py:220-251 | timers, input only when accepted, physics, state machine and the frame tick; `FighterFacts.BaseUpdateConsistent` (invariant kept), `FighterFacts.InputGated` (pad ignored when input is not accepted) and `FighterFacts.OneHitboxPerAttack` (an attack ends after its frames with one box) |
| `Fighters.RefreshMultihit` | src/characters/speedster.py:411-425 | afterwards a multi-hit box is never due at the current frame; only its last-hit frame changes |
| `Fighters.UpdateMultihit` | src/characters/speedster.py:411-425 | every box of the list is refreshed in place, none added or removed |
| `Fighters.ProjectileStep` | src/characters/warrior.py:311-333 | a projectile moves by its velocity and loses one frame of lifetime |
| `Fighters.WarriorProjectileGone` | src/characters/warrior.py:316-327 | the Warrior's removal test: no lifetime left, or beyond x -100 or 1380; `Fighters.ExpiredProjectiles` flags by it |
| `Fighters.Kept` | src/characters/warrior.py:329-333 | removal keeps order and drops exactly the flagged entries: every unflagged entry `i` sits at index `Survivors(drop[..i])`, the length is the number of unflagged entries, and nothing else appears |
| `Fighters.Survivors` | src/characters/warrior.py:329-333 | the number of entries a removal keeps never exceeds the list's length |
| `Fighters.KeptExtends` | src/characters/warrior.py:329-333 | removing the flagged entries from a list one longer keeps every earlier unflagged entry at its position and puts the last entry, when unflagged, right after them |
| `Fighters.StepProjectiles` | src/characters/warrior.py:316-327 | every projectile, and only a projectile, takes one step; length kept |
| `Fighters.ExpiredProjectiles` | src/characters/warrior.py:316-327 | a box is flagged exactly when it is a projectile whose stepped form ran out of lifetime or left the screen |
| `Fighters.UpdateProjectiles` | src/characters/warrior.py:311-333 | only the box list changes and it does not grow; every non-projectile stays, every projectile whose step is still on screen with lifetime left stays in its stepped form, and no non-projectile appears that was not there |
| `Fighters.ProjectilePassFacts` | src/characters/warrior.py:316-333 | the step-and-remove pass keeps every non-projectile, keeps every projectile whose step is still on screen with lifetime left in its stepped form, and adds no non-projectile |
| `Fighters.SpeedsterCooldownTick` | src/characters/speedster.py:372-379 | only the three cooldowns change |
| `Fighters.Flight` | src/characters/speedster.py:381-389 | `FighterFacts.FlightStep`: with attack held and time left the Speedster rises at air speed and spends a frame, otherwise flight and attack end; `FighterFacts.FlightConsistent` keeps the invariant |
| `Fighters.DashFriction` | src/characters/speedster.py:391-397 | only the horizontal speed changes, and only during a dash attack: it is multiplied by 0.85 and snaps to 0 when that is under 1 in magnitude; the speed never grows |
| `Fighters.BoostTick` | src/characters/speedster.py:399-403 | only the buff and the speed fields change, and only while the buff is on: the timer drops by one, the buff stays on exactly while the old timer exceeded 1 with the speeds kept, and when it ends the speeds are the archetype's base ones |
| `Fighters.SpeedsterPrologue` | src/characters/speedster.py:368-403 | cooldowns, flight, dash friction and the buff timer, in that order; `FighterFacts.SpeedsterPrologueConsistent` keeps the invariant and `FighterFacts.SpeedsterCooldowns` states the countdowns |
| `Fighters.CreateGroundPoundHitbox` | src/characters/heavy.py:230-254 | with stored data, exactly one shockwave is appended at the feet and the data is cleared; without, nothing changes |
| `Fighters.HeavyTimers` | src/characters/heavy.py:281-300 | the up-special cooldown counts down; the stance, and outside the stance the armor, lose one frame and drop exactly when their last frame is spent; ground-pound state untouched |
| `Fighters.LandGroundPound` | src/characters/heavy.py:303-306 | a pounding Heavy on the ground ends the pound and the attack and gains the shockwave; otherwise nothing changes |
| `Fighters.SlideBodySlam` | src/characters/heavy.py:309-319 | during a body slam the speed is 9 in the facing direction, or 0 with the attack ended when the stick points back past 0.5 |
| `Fighters.InBodySlam` | src/characters/heavy.py:309-312 | attacking with a body-slam descriptor loaded; `Fighters.SlideBodySlam` and `PhysicsFacts.SlamHitsOnce` are stated with it |
| `Fighters.SlamCancelled` | src/characters/heavy.py:313-317 | the stick points back past 0.5 against the facing; `Fighters.SlideBodySlam` stops the slam on it |
| `Fighters.HeavyPrologue` | src/characters/heavy.py:281-319 | timers, the pound landing and the slam slide, in that order; `FighterFacts.HeavyPrologueConsistent`, `FighterFacts.ArmorCountsDown`, `FighterFacts.GroundPoundLands` and `FighterFacts.BodySlamSlides` |
| `Fighters.Update` | src/characters/speedster.py:368-425 | each archetype's `update` (Warrior: src/characters/warrior.py:301-333, Heavy: src/characters/heavy.py:281-327); `FighterFacts.UpdateConsistent` proves every archetype keeps the invariant |
| `Fighters.BaseTakeDamage` | src/characters/base_character.py:500-539 | an invincible fighter is untouched; otherwise percent grows by exactly the damage, invincibility 0.3, cannot act, HIT_STUN |
| `Fighters.Invincible` | src/characters/base_character.py:504-505 | hit invincibility or respawn invincibility running; `Fighters.BaseTakeDamage` leaves such a fighter untouched |
| `Fighters.Hit` | src/characters/base_character.py:504-537 | a hit changes only percent, velocity and status |
| `Fighters.KnockbackScale` | src/characters/base_character.py:512-518 | `FighterFacts.KnockbackGrowsWithPercent`: up to 100% the scale strictly grows with percent; `PhysicsFacts.ScaleAtLeastOne`: at least 1 at non-negative percent |
| `Fighters.TakeDamage` | src/characters/heavy.py:348-362 | under armor the Heavy only gains damage times its multiplier; everyone else takes the base hit |
| `Fighters.LoseLife` | src/characters/base_character.py:541-547 | one life fewer and 0%, nothing else changes |
| `Fighters.CollisionRect` | src/characters/base_character.py:717-726 | the hurtbox has the body's size and stands on the position, centred horizontally |
| `FighterFacts.ChangeStateFacts` | src/characters/base_character.py:415-440 | a real change records the previous state and zeroes state time; IDLE, WALKING and RUNNING free action; LANDING locks; FALLING leaves the ground; the timers are never touched |
| `FighterFacts.TickTimersConsistent` | src/characters/base_character.py:225-229 | the timer prologue keeps the fighter invariant |
| `FighterFacts.MoveConsistent` | src/characters/base_character.py:253-307 | the movement step keeps the invariant, the boxes, the attack and the archetype |
| `FighterFacts.PerformAttackPreserves` | src/characters/base_character.py:442-498 | starting an attack keeps tuning, boxes, lives and percent, and loads only table descriptors |
| `FighterFacts.LoadMovePreserves` | src/characters/base_character.py:456-495 | loading a move after the lock keeps tuning, boxes, lives and percent |
| `FighterFacts.SpeedsterMovePreserves` | src/characters/speedster.py:178-292 | the Speedster's attack request keeps boxes, lives and percent, and keeps speeds base or boosted |
| `FighterFacts.HeavyMovePreserves` | src/characters/heavy.py:89-173 | the Heavy's attack request keeps boxes, lives and percent when it succeeds |
| `FighterFacts.LoadMoveKeeps` | src/characters/heavy.py:101-103 | entering an attack state keeps the tuning fields, boxes, lives and percent; an up special then holds a valid descriptor |
| `FighterFacts.StorePoundKeeps` | src/characters/heavy.py:152-153 | storing a valid loaded descriptor for the landing keeps the tuning fields, boxes, lives and percent |
| `FighterFacts.HandleInputConsistent` | src/characters/base_character.py:253-313 | input handling keeps the invariant |
| `FighterFacts.CreateAttackHitboxFacts` | src/characters/base_character.py:782-818 | at most one box is appended, earlier boxes untouched, only with an attack loaded, a melee box lasts the active frames; identity, lives and cooldowns kept |
| `FighterFacts.GenericCreatesBasicBox` | src/characters/base_character.py:782-818 | the base fighter's box is the 50x50 box in front of it |
| `FighterFacts.AttackTimingConsistent` | src/characters/base_character.py:758-780 | the phase logic keeps the invariant |
| `FighterFacts.BaseUpdateConsistent` | src/characters/base_character.py:220-251 | `Character.update` keeps the invariant |
| `FighterFacts.StepTailConsistent` | src/characters/base_character.py:239-251 | physics, the state machine and the attack-frame tick keep the invariant |
| `FighterFacts.SpeedsterPrologueConsistent` | src/characters/speedster.py:368-403 | the Speedster's prologue keeps the invariant |
| `FighterFacts.FlightConsistent` | src/characters/speedster.py:381-389 | flight keeps the invariant |
| `FighterFacts.HeavyPrologueConsistent` | src/characters/heavy.py:281-319 | the Heavy's prologue keeps the invariant |
| `FighterFacts.LandGroundPoundConsistent` | src/characters/heavy.py:303-306 | the ground-pound landing keeps the invariant |
| `FighterFacts.SlideBodySlamConsistent` | src/characters/heavy.py:309-319 | the body-slam slide keeps the invariant |
| `FighterFacts.KeptFromMultihitPositive` | src/characters/warrior.py:329-333 | removing boxes keeps every multi-hit interval positive |
| `FighterFacts.UpdateProjectilesConsistent` | src/characters/warrior.py:311-333 | `update_projectiles` keeps the invariant |
| `FighterFacts.UpdateMultihitConsistent` | src/characters/speedster.py:411-425 | `update_multihit_attacks` keeps the invariant |
| `FighterFacts.UpdateConsistent` | src/characters/base_character.py:220-251 | every archetype's `update` keeps the invariant: coyote time at 0, speeds base or boosted, table descriptors, positive multi-hit intervals |
| `FighterFacts.JumpNeedsGround` | src/characters/base_character.py:285-292 | with coyote time never positive, a jump is allowed exactly on the ground |
| `FighterFacts.TakeDamageConsistent` | src/characters/base_character.py:500-539 | a hit keeps the invariant |
| `FighterFacts.InputGated` | src/characters/base_character.py:236-237 | a fighter that cannot act or is in hitstun after the timers ran gives the same update whatever its pad says |
| `FighterFacts.CreateIgnoresFrames` | src/characters/base_character.py:782-818 | spawning a box does not depend on the frame counter |
| `FighterFacts.PhaseStep` | src/characters/base_character.py:249-251 | one epilogue moves an unfinished attack from phase k to phase k+1 |
| `FighterFacts.StartupTick` | src/characters/base_character.py:758-780 | during startup the counter moves on, and the box appears exactly on the first active frame |
| `FighterFacts.ActiveTick` | src/characters/base_character.py:758-780 | once the box exists the counter moves on until recovery ends |
| `FighterFacts.AttackStepsFollowPhases` | src/characters/base_character.py:249-251 | for every k up to startup+active+recovery, k epilogues give phase k |
| `FighterFacts.LastTick` | src/characters/base_character.py:775-780 | the last epilogue ends the attack |
| `FighterFacts.FinalPhase` | src/characters/base_character.py:775-780 | the phase after the last frame is unlocked, without a descriptor, holding the spawned box, IDLE on the ground and FALLING in the air |
| `FighterFacts.EndedAttack` | src/characters/base_character.py:831-846 | ending an attack unlocks, clears the descriptor, keeps the boxes and returns to IDLE or FALLING by the ground flag |
| `FighterFacts.OneHitboxPerAttack` | src/characters/base_character.py:249-251 | after exactly startup+active+recovery epilogues the attack has ended (IDLE grounded, FALLING airborne) having spawned exactly one box |
| `FighterFacts.AttackLastsItsFrames` | src/characters/base_character.py:249-251 | before that the fighter is still attacking with counter k, and holds the box only from the first active frame |
| `FighterFacts.GenericAttackBox` | src/characters/base_character.py:782-818 | a base attack leaves exactly one 50x50 box with the attack's active frames |
| `FighterFacts.RefusedSpecialLocks` | src/characters/speedster.py:187-189 | a cooldown-refused special, or an unbranched direction, leaves a fighter with no descriptor locked with nothing to time out |
| `FighterFacts.SoftLockPersists` | src/characters/base_character.py:220-251 | for every archetype, such a fighter's own update succeeds and leaves it locked whatever the pad says |
| `FighterFacts.BaseUpdateKeepsSoftLock` | src/characters/base_character.py:220-251 | the shared update of a soft-locked fighter succeeds and leaves it soft-locked |
| `FighterFacts.SpeedsterPrologueKeepsSoftLock` | src/characters/speedster.py:368-403 | the Speedster's prologue leaves a soft-locked fighter soft-locked |
| `FighterFacts.HeavyPrologueKeepsSoftLock` | src/characters/heavy.py:281-319 | the Heavy's prologue leaves a soft-locked fighter soft-locked |
| `FighterFacts.HitLaunches` | src/characters/base_character.py:512-537 | a hit adds knockback times the scale at the new percent over the weight to the velocity, and sets hitstun to (damage + dp·0.02)·0.01 |
| `FighterFacts.KnockbackGrowsWithPercent` | src/characters/base_character.py:515-518 | up to 100% the knockback scale strictly grows with percent |
| `FighterFacts.ArmorAbsorbsKnockback` | src/characters/heavy.py:352-362 | under armor velocity, hitstun, state and invincibility stay; percent grows by damage times the multiplier |
| `FighterFacts.GroundPoundLands` | src/characters/heavy.py:303-306 | landing a pound appends exactly one shockwave, clears the data, ends pound and attack into IDLE |
| `FighterFacts.PoundSurvivesEndAttack` | src/characters/heavy.py:339-346 | `end_attack` is a no-op while pounding |
| `FighterFacts.BodySlamSlides` | src/characters/heavy.py:309-319 | during a slam the Heavy slides at 9 facing-wise and keeps attacking, unless the stick points back, which stops it and ends the attack |
| `FighterFacts.HeavyUpSpecial` | src/characters/heavy.py:138-153 | the up special launches at 1.2 times the jump strength, leaves the ground, starts the pound with its descriptor stored, cooldown 600 |
| `FighterFacts.ArmoredAttacks` | src/characters/heavy.py:170-181 | neutral turns armor on for 10 frames, side for 40 |
| `FighterFacts.ArmorCountsDown` | src/characters/heavy.py:289-294 | each update takes one armor frame and drops armor at zero |
| `FighterFacts.SpeedsterCooldowns` | src/characters/speedster.py:372-379 | the up and side-special cooldowns drop by one while positive and never below zero |
| `FighterFacts.SideSpecialLaunch` | src/characters/speedster.py:227-248 | the side special launches at 18 in the facing direction with a 300-frame cooldown |
| `FighterFacts.FlightStep` | src/characters/speedster.py:381-389 | flying with attack held and time left rises at air speed and spends a frame; otherwise flight and attack end |
| `FighterFacts.SpeedsterMultihitGap` | src/characters/speedster.py:404-425 | after a Speedster update every multi-hit box it owns is not due at the current frame |
| `Characters.Character.constructor` | src/characters/base_character.py:75-157 | the new object's fields are `NewFighter` |
| `Characters.Character.ChangeState` | src/characters/base_character.py:415-440 | the fields afterwards are `Fighters.ChangeState` of those before |
| `Characters.Character.TickTimers` | src/characters/base_character.py:225-229 | the fields afterwards are `Fighters.TickTimers` of those before |
| `Characters.Character.ApplyGroundMovement` | src/characters/base_character.py:315-375 | the fields afterwards are `GroundMovement` of those before |
| `Characters.Character.ApplyAirMovement` | src/characters/base_character.py:377-390 | the fields afterwards are `AirMovement` of those before |
| `Characters.Character.Face` | src/characters/base_character.py:260-270 | the fields afterwards are `Fighters.Face` of those before |
| `Characters.Character.Jump` | src/characters/base_character.py:283-293 | the fields afterwards are `Fighters.Jump` of those before |
| `Characters.Character.Crouch` | src/characters/base_character.py:301-307 | the fields afterwards are `Fighters.Crouch` of those before |
| `Characters.Character.Move` | src/characters/base_character.py:253-307 | the fields afterwards are `Fighters.Move` of those before |
| `Characters.Character.HandleInput` | src/characters/base_character.py:253-313 | succeeds exactly when `Fighters.HandleInput` does, and then leaves its result |
| `Characters.Character.PerformAttack` | src/characters/base_character.py:442-498 | succeeds exactly when `Fighters.PerformAttack` does, and then leaves its result |
| `Characters.Character.LoadMove` | src/characters/base_character.py:456-495 | the fields afterwards are `Fighters.LoadMove` of those before, box flag cleared |
| `Characters.Character.SpeedsterMove` | src/characters/speedster.py:190-292 | the fields afterwards are `Fighters.SpeedsterMove` of those before |
| `Characters.Character.HeavyMove` | src/characters/heavy.py:100-173 | succeeds exactly when `Fighters.HeavyMove` does, and then leaves its result |
| `Characters.Character.PoundLaunch` | src/characters/heavy.py:138-140 | the fighter becomes `Fighters.PoundLaunch` of itself: airborne at 1.2 times the Heavy's jump strength, ground-pounding |
| `Characters.Character.StorePound` | src/characters/heavy.py:152-153 | the fighter becomes `Fighters.StorePound` of itself: the loaded descriptor is kept for the landing and the cooldown starts |
| `Characters.Character.UpdatePhysics` | src/characters/base_character.py:392-413 | the fields afterwards are `Fighters.UpdatePhysics` of those before |
| `Characters.Character.UpdateStateMachine` | src/characters/base_character.py:595-614 | the fields afterwards are `Fighters.UpdateStateMachine` of those before |
| `Characters.Character.CreateAttackHitbox` | src/characters/base_character.py:782-818 | the fields afterwards are `Fighters.CreateAttackHitbox` of those before |
| `Characters.Character.EndAttack` | src/characters/base_character.py:831-846 | the fields afterwards are `Fighters.EndAttack` of those before |
| `Characters.Character.UpdateAttackTiming` | src/characters/base_character.py:758-780 | the fields afterwards are `AttackTiming` of those before |
| `Characters.Character.BaseUpdate` | src/characters/base_character.py:220-251 | succeeds exactly when `Fighters.BaseUpdate` does, and then leaves its result |
| `Characters.Character.UpdateProjectiles` | src/characters/warrior.py:311-333 | the fields afterwards are `Fighters.UpdateProjectiles` of those before |
| `Characters.Character.MoveProjectiles` | src/characters/warrior.py:316-327 | the loop yields the stepped list and the removal flags judged on the stepped boxes |
| `Characters.Character.RemoveFlagged` | src/characters/warrior.py:329-333 | the removal loop yields exactly the unflagged boxes in order |
| `Characters.Character.UpdateMultihitAttacks` | src/characters/speedster.py:411-425 | the loop leaves `UpdateMultihit` of the fields before |
| `Characters.Character.SpeedsterPrologue` | src/characters/speedster.py:372-403 | the fields afterwards are `Fighters.SpeedsterPrologue` of those before |
| `Characters.Character.SpeedsterCooldownTick` | src/characters/speedster.py:372-379 | the fields afterwards are `Fighters.SpeedsterCooldownTick` of those before |
| `Characters.Character.DashFriction` | src/characters/speedster.py:391-397 | the fields afterwards are `Fighters.DashFriction` of those before |
| `Characters.Character.Flight` | src/characters/speedster.py:381-389 | the fields afterwards are `Fighters.Flight` of those before |
| `Characters.Character.BoostTick` | src/characters/speedster.py:399-403 | the fields afterwards are `Fighters.BoostTick` of those before |
| `Characters.Character.HeavyPrologue` | src/characters/heavy.py:281-319 | the fields afterwards are `Fighters.HeavyPrologue` of those before |
| `Characters.Character.HeavyTimers` | src/characters/heavy.py:285-300 | the fields afterwards are `Fighters.HeavyTimers` of those before |
| `Characters.Character.CreateGroundPoundHitbox` | src/characters/heavy.py:230-254 | the fields afterwards are `Fighters.CreateGroundPoundHitbox` of those before |
| `Characters.Character.SlideBodySlam` | src/characters/heavy.py:309-319 | the fields afterwards are `Fighters.SlideBodySlam` of those before |
| `Characters.Character.Update` | src/characters/heavy.py:281-327 | succeeds exactly when the archetype's `Fighters.Update` does, and then leaves its result |
| `Characters.Character.TakeDamage` | src/characters/heavy.py:348-362 | the fields afterwards are `Fighters.TakeDamage` of those before |
| `Characters.Character.BaseTakeDamage` | src/characters/base_character.py:500-539 | the fields afterwards are `Fighters.BaseTakeDamage` of those before |
| `Characters.Character.Hit` | src/characters/base_character.py:504-537 | the fields afterwards are `Fighters.Hit` of those before |
| `Characters.Character.LoseLife` | src/characters/base_character.py:541-547 | the fields afterwards are `Fighters.LoseLife` of those before |
| `Characters.Character.CollisionRect` | src/characters/base_character.py:717-726 | the hurtbox of the current fields |
| `Physics.DefaultGravity` | src/physics/physics_manager.py:251-273 | the resolver's gravity changes only the velocity |
| `Physics.ApplyGravity` | src/physics/physics_manager.py:245-273 | the stage's own gravity when it has one, the default otherwise; `PhysicsFacts.GravityCapsFall` covers both |
| `Physics.Movement` | src/physics/physics_manager.py:289-290 | the tick's displacement is velocity times 60 times `dt`; `PhysicsFacts.CountCoversMove` is stated on it |
| `Physics.OnPlatform` | src/physics/physics_manager.py:413-456 | the landing band: feet from 5 above to 10 below the top, and the body overlapping the platform inset by 5; `Physics.FirstLanding` searches by it |
| `Physics.SubstepCount` | src/physics/physics_manager.py:295-302 | there is always at least one sub-step |
| `Physics.Land` | src/physics/physics_manager.py:437-456 | a landing leaves the body standing and changes only its height, vertical speed and ground flag |
| `Physics.FirstLanding` | src/physics/physics_manager.py:376-394 | the index found is the first platform, in list order, whose band holds the body; none found means no band holds it |
| `Physics.StageCollision` | src/physics/physics_manager.py:346-394 | `PhysicsFacts.StageCollisionFacts`: grounded iff some band holds the body, landing on the first; otherwise airborne with position kept, FALLING unless rising |
| `Physics.BlastKo` | src/physics/physics_manager.py:479-520 | `PhysicsFacts.BlastKoOrder`: no KO exactly inside the bounds, and the first violated bound in the order left, right, top, bottom |
| `Physics.RecordKo` | src/physics/physics_manager.py:479-520 | a player is recorded at most once per tick, with its first KO; `PhysicsFacts.SubstepsRecordFirstKo` |
| `Physics.Substep` | src/physics/physics_manager.py:299-302 | one move then the platform test; `PhysicsFacts.SubstepKeeps` proves identity and every field combat reads are kept |
| `Physics.Substeps` | src/physics/physics_manager.py:295-302 | `PhysicsFacts.SubstepsRecordFirstKo`: only the fighter's own entry is added, only if it had none, carrying `FirstKo` |
| `Physics.FirstKo` | src/physics/physics_manager.py:295-302 | reference definition: the KO of the first sub-step that ends outside the blast zones |
| `Physics.Fall` | src/physics/physics_manager.py:245-273 | the stage's gravity when it has one; `PhysicsFacts.GravityCapsFall` proves every policy changes only velocity and caps an airborne fall |
| `Physics.CharacterPhysics` | src/physics/physics_manager.py:220-313 | `PhysicsFacts.CharacterPhysicsFacts`: one fighter's movement adds at most its own first KO and keeps what combat reads |
| `Physics.Motion` | src/physics/physics_manager.py:202-207 | both fighters' movement, player 1 first, from an empty map; `PhysicsFacts.StepKoMap` states the map and `PhysicsFacts.FirstAttackerKeeps`, `PhysicsFacts.SecondAttackerKeeps` what combat reads |
| `Physics.Step` | src/physics/physics_manager.py:187-218 | movement then combat; `PhysicsFacts.StepKoMap`: a player has an entry exactly when its movement crossed a zone, with the first crossing |
| `Physics.Direction` | src/physics/physics_manager.py:756-765 | a launch is always to the right or to the left |
| `Physics.KnockbackX` | src/physics/physics_manager.py:756-765 | the force times the absolute cosine, away from the attacker; `PhysicsFacts.SignedKnockback` proves its sign |
| `Physics.KnockbackY` | src/physics/physics_manager.py:765 | minus the force times the sine, up being negative |
| `Physics.ApplyHit` | src/physics/physics_manager.py:743-780 | `PhysicsFacts.HitPushesAway`, `PhysicsFacts.SignedKnockback` and `PhysicsFacts.ApplyHitKeeps`: a hit pushes away from the attacker and keeps what combat reads |
| `Physics.SlamPass` | src/physics/physics_manager.py:660-683 | `PhysicsFacts.SlamHitsOnce` and `PhysicsFacts.SlamPassKeeps`: a connecting slam hits once at -10 degrees, ends, keeps a fifth of the speed; a non-slamming fighter is untouched |
| `Physics.BodySlams` | src/physics/physics_manager.py:654-683 | player 1's slam then player 2's; `PhysicsFacts.SecondAttackerKeeps` proves a non-slamming player 2 keeps what combat reads through it |
| `Physics.BoxRect` | src/physics/physics_manager.py:713-718 | a box's rectangle has the box's size |
| `Physics.AgeBox` | src/physics/physics_manager.py:692-705 | a projectile moves and loses a frame of lifetime, any other box loses an active frame; `PhysicsFacts.PassAgesBoxes` |
| `Physics.Expired` | src/physics/physics_manager.py:692-705 | the resolver's removal test: a projectile with no lifetime left or beyond x -100, x 1380 or y 800, any other box with no frames left; `PhysicsFacts.BoxRules` |
| `Physics.Due` | src/physics/physics_manager.py:724-729 | a multi-hit box lands only once its interval has passed since its last hit; `PhysicsFacts.NotDueBoxesHarmless` |
| `Physics.BoxPass` | src/physics/physics_manager.py:692-741 | the pass returns one box and one removal flag per box |
| `Physics.BoxStep` | src/physics/physics_manager.py:692-736 | `PhysicsFacts.BoxRules`: an expired box is dropped untested, a touching single-hit box hits once and goes, a multi-hit box hits only when due and stays |
| `Physics.HitboxPass` | src/physics/physics_manager.py:686-741 | `PhysicsFacts.PassAgesBoxes` and `PhysicsFacts.PassKeepsDefender`: every box ages, every flag follows the removal rule, and the defender keeps what combat reads |
| `Physics.Combat` | src/physics/physics_manager.py:654-741 | slams, then player 1's boxes, then player 2's; `PhysicsFacts.SpeedsterMultihitNeverLands`, `PhysicsFacts.SpeedsterMultihitNeverLandsAsPlayer2`, `PhysicsFacts.WarriorProjectileTwice` and `PhysicsFacts.WarriorProjectileTwiceAsPlayer2` |
| `PhysicsFacts.GravityCapsFall` | src/physics/physics_manager.py:251-273 | every gravity policy changes only velocity, keeps an airborne fall at or under terminal speed, speeds up a fall under 15, and leaves a grounded vertical speed alone |
| `PhysicsFacts.CountCoversMove` | src/physics/physics_manager.py:295-302 | ten times the sub-step count exceeds the longer axis of the move |
| `PhysicsFacts.ShortShare` | src/physics/physics_manager.py:295-302 | a share of a move cut into more than a tenth of its length is under 10, and the shares add up |
| `PhysicsFacts.SubstepsShort` | src/physics/physics_manager.py:295-302 | each sub-step moves less than 10 along each axis and together they cover the move |
| `PhysicsFacts.LandStaysOnPlatform` | src/physics/physics_manager.py:437-456 | a landed body is still in the band; a falling one sits on the top with its fall stopped, a rising one only stands |
| `PhysicsFacts.FirstLandingIsFirst` | src/physics/physics_manager.py:376-394 | the platform chosen is k iff k is the first index whose band holds the body |
| `PhysicsFacts.StageCollisionFacts` | src/physics/physics_manager.py:346-394 | grounded iff some band holds the body, landing on the first; otherwise airborne with position kept, FALLING unless rising; platform kind ignored |
| `PhysicsFacts.BlastKoOrder` | src/physics/physics_manager.py:479-520 | no KO exactly inside the bounds; each direction reported iff its bound is the first violated in the order left, right, top, bottom |
| `PhysicsFacts.SubstepKeeps` | src/physics/physics_manager.py:295-302 | a sub-step keeps identity and every field combat reads |
| `PhysicsFacts.SubstepsRecordFirstKo` | src/physics/physics_manager.py:295-302 | the sub-steps add only the fighter's own entry, only if it had none, carrying the first sub-step that ended outside the zones |
| `PhysicsFacts.CharacterPhysicsFacts` | src/physics/physics_manager.py:220-313 | one fighter's movement adds at most its own first KO and keeps what combat reads |
| `PhysicsFacts.StepKoMap` | src/physics/physics_manager.py:187-218 | the tick's map has an entry for a player exactly when its movement crossed a zone, with the first crossing, and no other keys |
| `PhysicsFacts.TakeDamageKeeps` | src/physics/physics_manager.py:743-780 | a hit keeps what combat reads of its target, and its position |
| `PhysicsFacts.InvincibleIgnoresHits` | src/characters/base_character.py:504-508 | an invincible defender without armor is untouched by any hit |
| `PhysicsFacts.ScaledPush` | src/physics/physics_manager.py:756-765 | a positive factor keeps the sign of a push |
| `PhysicsFacts.ScaleAtLeastOne` | src/characters/base_character.py:512-518 | at non-negative percent the knockback scale is at least 1 |
| `PhysicsFacts.LaunchSign` | src/characters/base_character.py:512-537 | an unprotected hit moves the defender further the way the horizontal knockback points |
| `PhysicsFacts.DividedPush` | src/characters/base_character.py:512-537 | dividing the scaled knockback by a positive weight keeps its sign |
| `PhysicsFacts.HitPushesAway` | src/physics/physics_manager.py:743-780 | a hit with positive knockback off the vertical pushes right iff the attacker stands to the left |
| `PhysicsFacts.SignedKnockback` | src/physics/physics_manager.py:756-765 | the horizontal knockback has the direction's sign |
| `PhysicsFacts.SlamHitsOnce` | src/physics/physics_manager.py:660-683 | a slam that connects hits once at -10 degrees, ends the slam, keeps a fifth of the attacker's speed and cannot hit again |
| `PhysicsFacts.SlamPassKeeps` | src/physics/physics_manager.py:660-683 | a fighter not slamming is untouched by its slam pass; the defender keeps what combat reads |
| `PhysicsFacts.ApplyHitKeeps` | src/physics/physics_manager.py:743-780 | a box hit keeps what combat reads of the defender |
| `PhysicsFacts.BoxRules` | src/physics/physics_manager.py:692-741 | an expired box is dropped untested; a single-hit box that touches hits once and goes; a multi-hit box hits only when due and stays until it expires; no contact, no hit |
| `PhysicsFacts.PassAgesBoxes` | src/physics/physics_manager.py:692-741 | over a whole pass every box comes out aged and every flag follows the removal rule |
| `PhysicsFacts.PassKeepsDefender` | src/physics/physics_manager.py:692-741 | the defender leaves a pass with what combat reads unchanged |
| `PhysicsFacts.NotDueBoxesHarmless` | src/physics/physics_manager.py:722-736 | multi-hit boxes none of which is due leave the defender exactly as it was |
| `PhysicsFacts.FirstAttackerKeeps` | src/physics/physics_manager.py:203-218 | between its own update and its hitbox pass, a non-slamming player 1 keeps what combat reads |
| `PhysicsFacts.SecondAttackerKeeps` | src/physics/physics_manager.py:203-218 | a non-slamming player 2 keeps what combat reads from its own update through the slams and player 1's hitbox pass |
| `PhysicsFacts.SpeedsterMultihitNeverLands` | src/characters/speedster.py:404-425 | after a Speedster's update no multi-hit box of its is due in the resolver's pass, so none of them ever lands |
| `PhysicsFacts.SpeedsterMultihitNeverLandsAsPlayer2` | src/characters/speedster.py:404-425 | the same for a Speedster playing as player 2: after its update no multi-hit box of its is due in its own pass |
| `PhysicsFacts.UpdatedProjectileStepped` | src/characters/warrior.py:311-333 | every projectile left after `update_projectiles` is one step on from a projectile before it |
| `PhysicsFacts.PassedProjectileStepped` | src/physics/physics_manager.py:692-695 | every single-hit projectile kept by the pass is one step on from one the attacker held |
| `PhysicsFacts.WarriorProjectileTwice` | src/characters/warrior.py:306-333 | in one tick every Warrior projectile left after the resolver has moved twice from one before the tick |
| `PhysicsFacts.WarriorProjectileTwiceAsPlayer2` | src/characters/warrior.py:306-333 | the same for a Warrior playing as player 2: every projectile left after the resolver has moved twice from one before the tick |
| `Resolver.PhysicsManager.constructor` | src/physics/physics_manager.py:148-185 | the KO map starts empty |
| `Resolver.PhysicsManager.Update` | src/physics/physics_manager.py:187-218 | both fighters and the returned KO map are `Step` of the fighters before; the map returned is the one held |
| `Resolver.PhysicsManager.ApplyDefaultGravity` | src/physics/physics_manager.py:251-273 | the body afterwards is `DefaultGravity` of the one before |
| `Resolver.PhysicsManager.UpdateCharacterPhysics` | src/physics/physics_manager.py:220-313 | fighter and KO map afterwards are `CharacterPhysics` of those before |
| `Resolver.PhysicsManager.ApplyGravity` | src/physics/physics_manager.py:245-273 | the fighter afterwards is `Fall` of the one before: the stage's gravity when it has one |
| `Resolver.PhysicsManager.MoveInSubsteps` | src/physics/physics_manager.py:295-302 | the loop leaves `Substeps` of the fighter and map before |
| `Resolver.PhysicsManager.MoveOneSubstep` | src/physics/physics_manager.py:299-302 | the fighter afterwards is `Physics.Substep` of the one before, and the KO map records the new position's first violated zone unless the player already had an entry |
| `Resolver.PhysicsManager.MoveBy` | src/physics/physics_manager.py:300-301 | the position moves by exactly one share on each axis and nothing else changes |
| `Resolver.PhysicsManager.HandleStageCollision` | src/physics/physics_manager.py:315-344 | the platform test, then the KO recorded for the new position |
| `Resolver.PhysicsManager.HandleModernStageCollision` | src/physics/physics_manager.py:346-394 | the loop over platforms leaves `StageCollision` of the fighter before |
| `Resolver.PhysicsManager.CheckPlatformLanding` | src/physics/physics_manager.py:413-460 | answers whether the body is in the band, and lands it exactly then |
| `Resolver.PhysicsManager.CheckBlastZoneKo` | src/physics/physics_manager.py:479-565 | the map afterwards records the first violated zone only if the player had no entry |
| `Resolver.PhysicsManager.CheckCombatCollisions` | src/physics/physics_manager.py:654-741 | both fighters afterwards are `Combat` of those before |
| `Resolver.PhysicsManager.SlamCheck` | src/physics/physics_manager.py:660-683 | attacker and defender afterwards are `SlamPass` of those before |
| `Resolver.PhysicsManager.SlamHit` | src/physics/physics_manager.py:671-683 | the defender takes the slam's hit at its fixed angle; the attacker's attack ends and its horizontal speed keeps a fifth |
| `Resolver.PhysicsManager.ApplyHit` | src/physics/physics_manager.py:743-780 | the target afterwards is `Physics.ApplyHit` of the one before |
| `Resolver.PhysicsManager.HitboxPass` | src/physics/physics_manager.py:686-741 | the nested loop and the removals leave `Physics.HitboxPass` of both fighters |
| `Resolver.PhysicsManager.BoxStep` | src/physics/physics_manager.py:692-736 | the box, its flag and the defender are `Physics.BoxStep` of those before |
| `Stages.NewPlatform` | src/stages/base_stage.py:48-69 | a platform is active and still at the given place and size; health 100 iff breakable, else -1 |
| `Stages.DefaultBlastZones` | src/stages/base_stage.py:130-133 | 200 beyond every edge |
| `Stages.Info` | src/stages/base_stage.py:241-257 | the counts are the platform and spawn-point list lengths; name and size copied; no hazards |
| `Stages.BattlefieldPlatforms` | src/stages/battlefield.py:113-236 | four platforms: solid main centred, two pass-through sides level, 50 inside its edges and mirrored, a top one highest and centred |
| `Stages.BattlefieldSpawns` | src/stages/battlefield.py:238-275 | player 1 then player 2, 250 either side of the main centre, 50 above it |
| `Stages.BattlefieldBlastZones` | src/stages/battlefield.py:277-311 | 280 beyond the sides, 250 above, 350 below |
| `Stages.PlainsPlatforms` | src/stages/plains.py:154-294 | six platforms: full-width ground at 600, three towers on it (centre one centred, sides mirrored), two pass-through floats level with the centre tower centred in the gaps |
| `Stages.PlainsSpawns` | src/stages/plains.py:331-369 | player 1 then player 2, 320 either side of the ground's centre, 60 above it |
| `Stages.PlainsBlastZones` | src/stages/plains.py:371-405 | 200 beyond every edge |
| `Stages.BattlefieldGravity` | src/stages/battlefield.py:533-609 | grounded: untouched; airborne: `vx` times 0.98, `vy` plus 0.8 (0.72 near the top platform) capped at 18; only velocity changes |
| `Stages.PlainsGravity` | src/stages/plains.py:600-714 | grounded: `vx` times 0.92; airborne: `vx` times 0.974 plus the wind term, `vy` plus 0.92 (0.966 near the ground's edges) capped at 16; only velocity changes |
| `Stages.StageGravityCapsFall` | src/stages/battlefield.py:579-599 | both arenas keep a fall at or under 18, speed up a fall under 15, and change nothing but velocity |
| `Stages.StageGravity` | src/stages/battlefield.py:533-609 | the arena's own policy (Plains: src/stages/plains.py:600-714); `Stages.StageGravityCapsFall` proves both keep a fall at or under 18 and leave position and flags alone |
| `Stages.Stage.constructor` | src/stages/base_stage.py:115-149 | a base stage with no platforms or spawn points and the default blast zones |
| `Stages.Stage.Battlefield` | src/stages/battlefield.py:55-111 | the Battlefield layout, spawns and zones, in that order, and a well-formed stage |
| `Stages.Stage.Plains` | src/stages/plains.py:59-134 | the Plains layout, spawns and zones with the given wind, and a well-formed stage |
| `Stages.Stage.AddPlatform` | src/stages/base_stage.py:151-160 | nothing changes |
| `Stages.Stage.AddSpawnPoint` | src/stages/base_stage.py:162-171 | the point is appended at the end and nothing else changes |
| `Stages.Stage.CheckBlastZones` | src/stages/base_stage.py:185-194 | the answer is always none |
| `Stages.Stage.ApplyStageGravity` | src/stages/plains.py:600-714 | the fighter's body afterwards is `StageGravity` of the one before |
| `Matches.WithPlayer` | src/core/state_manager.py:572-620 | the given player is replaced and nothing else changes |
| `Matches.Winner` | src/core/state_manager.py:353-389 | player 2 wins iff player 1 is out of lives, or player 2 has lives and a lower percent when time is up; player 1 wins in the mirrored cases and on ties; no winner iff both have lives and time is left |
| `Matches.ResultsAsWritten` | src/core/state_manager.py:391-407 | as written, the winner's damage field holds the loser's percent and the loser's field the winner's: it is `Results` with the two damage fields exchanged |
| `Matches.ResultsAsWrittenSwapsDamage` | src/core/state_manager.py:398-403 | a timed-out match won by player 1 at 10% against 50% records a winner damage of 50 |
| `Matches.Results` | src/core/state_manager.py:391-407 | the loser is 3 minus the winner; each archetype and damage field is taken from its own player; the time is the elapsed time |
| `Matches.TransitionToWinScreen` | src/core/state_manager.py:391-407 | stores `ResultsAsWritten` and moves to the win screen; `Matches.CheckMatchEndFacts` states the outcome |
| `Matches.CheckMatchEnd` | src/core/state_manager.py:353-389 | the check changes neither fighter, the clocks, the respawn timers nor the spawn points |
| `Matches.CheckMatchEndFacts` | src/core/state_manager.py:353-389 | the hook log stays well nested; without a winner nothing changes; with one the win screen is current and holds the record as written, which is `Results` with the two damages exchanged, so the winner's field holds the loser's percent |
| `Matches.KoPlayer` | src/core/state_manager.py:572-602 | a KO touches neither clock nor spawn points and adds no respawn entry but the player's own |
| `Matches.KoPlayerFacts` | src/core/state_manager.py:572-602 | a respawning player is left alone; otherwise exactly one life is lost and percent zeroed; with lives left a 2.0 s timer starts, with none the win screen follows; the other player is untouched |
| `Matches.KoPlayerIdempotent` | src/core/state_manager.py:579-602 | a second KO right after a first one with lives left changes nothing |
| `Matches.RespawnPlayer` | src/core/state_manager.py:604-620 | `Matches.RespawnTimersFacts`: a player whose timer runs out stands at its respawn position at rest |
| `Matches.RespawnTick` | src/core/state_manager.py:346-351 | one timer entry touches only its own player and key, and adds no key |
| `Matches.UpdateRespawnTimers` | src/core/state_manager.py:342-351 | the timers never touch the clock or the spawn points |
| `Matches.RespawnTicksCommute` | src/core/state_manager.py:346-351 | the dictionary's iteration order does not matter |
| `Matches.RespawnTimersFacts` | src/core/state_manager.py:342-351 | each timer drops by `dt`; at 0 or below the entry goes and the player stands at its respawn position at rest; no timer is added and nobody else moves |
| `Matches.KoFromMap` | src/core/state_manager.py:320-321 | the KO loop touches neither clock nor spawn points |
| `Matches.DamageKo` | src/core/state_manager.py:324-327 | the damage KO touches neither clock nor spawn points |
| `Matches.Bookkeeping` | src/core/state_manager.py:320-340 | the bookkeeping touches neither clock nor spawn points |
| `Matches.KoStep` | src/core/state_manager.py:572-602 | a KO of one player costs exactly that player a life unless it is respawning, and leaves the other one as it was |
| `Matches.KoFromMapStep` | src/core/state_manager.py:320-321 | the map's KOs cost a player a life exactly when it is in the map and not respawning |
| `Matches.DamageKoStep` | src/core/state_manager.py:324-327 | the damage KO fires exactly at 300% or more for a player not respawning |
| `Matches.BookkeepingLosesOneLife` | src/core/state_manager.py:320-340 | in one tick a player loses at most one life, exactly when it is not respawning and was blasted or reached 300%; a respawning player keeps its record and its timer |
| `Matches.Clock` | src/core/state_manager.py:297-298 | `Matches.TickClock`: the timer never goes negative and counts down by `dt`; elapsed time grows by `dt` |
| `Matches.CharacterUpdates` | src/core/state_manager.py:309-312 | a player with a respawn timer is not updated; `Matches.RespawningIgnoresInput` |
| `Matches.Tick` | src/core/state_manager.py:292-340 | clock, respawn timers, character updates, the resolver's step and the bookkeeping; `Matches.TickClock`, `Matches.RespawningIgnoresInput` and `Matches.BookkeepingLosesOneLife` |
| `Matches.TickClock` | src/core/state_manager.py:297-298 | the match timer never goes negative and counts down by `dt` until it reaches 0; elapsed time grows by `dt` |
| `Matches.RespawningIgnoresInput` | src/core/state_manager.py:309-312 | a player still respawning after the countdown does not read its controller |
| `Matches.SpawnPair` | src/core/state_manager.py:144-156 | the stage's first two spawn points when it has two, else the fallback pair |
| `Matches.StartMatch` | src/core/state_manager.py:126-200 | `Matches.StartMatchFacts`: succeeds iff both picks exist, then the picked archetypes at the spawn points with 3 lives and 0% |
| `Matches.Reset` | src/core/state_manager.py:158-168 | 0%, three lives, at rest on the ground; `Matches.StartMatchFacts` states it of both players |
| `Matches.StartMatchFacts` | src/core/state_manager.py:126-200 | `enter` succeeds iff a stage and both characters were picked; then the picked archetypes stand at the spawn points with 3 lives, 0%, at rest, player 1 facing right, a full clock and no respawns |
| `Gameplay.TickedStep` | src/core/state_manager.py:346-351 | applying one more player's entry extends the partial timer update |
| `Gameplay.TickedAll` | src/core/state_manager.py:342-351 | applying every entry is `UpdateRespawnTimers` |
| `Gameplay.TickStages` | src/core/state_manager.py:292-340 | a tick is the clock and timers, the characters' updates, the resolver's step and the bookkeeping, in that order |
| `Gameplay.GameplayState.constructor` | src/core/state_manager.py:84-124 | the objects given, a full clock, no respawns, the given spawn points |
| `Gameplay.GameplayState.Enter` | src/core/state_manager.py:126-168 | succeeds iff a stage and both characters were picked; the new match is `StartMatch` on the stage built from the pick |
| `Gameplay.GameplayState.SetupStage` | src/core/state_manager.py:202-238 | Battlefield for that pick, otherwise Plains with the given wind; always well formed |
| `Gameplay.GameplayState.NewPlayer` | src/core/state_manager.py:170-200 | a fresh character of the picked class at its spawn point with `enter`'s reset |
| `Gameplay.GameplayState.Update` | src/core/state_manager.py:292-340 | succeeds exactly when `Tick` does, and then leaves `Tick` of the match before, keeping the object invariant |
| `Gameplay.GameplayState.Prepare` | src/core/state_manager.py:297-312 | the clock, the respawn timers and the characters' updates, as their functions say |
| `Gameplay.GameplayState.Resolve` | src/core/state_manager.py:317-340 | the resolver's step, then the bookkeeping on the map it returned |
| `Gameplay.GameplayState.UpdateCharacters` | src/core/state_manager.py:309-312 | succeeds exactly when `CharacterUpdates` does, and then leaves both of its fighters |
| `Gameplay.GameplayState.HandleKos` | src/core/state_manager.py:320-340 | the match afterwards is `Bookkeeping` of the one before |
| `Gameplay.GameplayState.BlastKos` | src/core/state_manager.py:320-321 | the loop over the KO map leaves `KoFromMap` of the match before |
| `Gameplay.GameplayState.DamageKos` | src/core/state_manager.py:324-327 | player 1's damage KO, then player 2's |
| `Gameplay.GameplayState.UpdateRespawnTimers` | src/core/state_manager.py:342-351 | the loop over the timers leaves `Matches.UpdateRespawnTimers` of the match before |
| `Gameplay.GameplayState.TickRespawnTimer` | src/core/state_manager.py:346-351 | one entry's countdown, as `RespawnTick` says |
| `Gameplay.GameplayState.RespawnPlayer` | src/core/state_manager.py:604-620 | the match afterwards is `Matches.RespawnPlayer` of the one before |
| `Gameplay.GameplayState.KoPlayer` | src/core/state_manager.py:572-602 | the match afterwards is `Matches.KoPlayer` of the one before |
| `Gameplay.GameplayState.CheckMatchEnd` | src/core/state_manager.py:353-389 | the match afterwards is `Matches.CheckMatchEnd` of the one before |
| `Gameplay.GameplayState.TransitionToWinScreen` | src/core/state_manager.py:391-407 | the manager holds the record as written (winner's damage from the other player, loser's damage from the winner) and has moved to the win screen |
| `Flow.InitialFlow` | src/core/state_manager.py:854-883 | the manager starts on the main menu with its hook log well nested |
| `Flow.ChangeScreen` | src/core/state_manager.py:903-929 | `Flow.ChangeScreenNested`: the old screen's exit then the new one's enter, nothing else appended, picks and results kept |
| `Flow.ChangeScreenNested` | src/core/state_manager.py:903-929 | a change exits the old screen before entering the new one, appends only those hooks, and keeps the picks and results |
| `Flow.AlternatesAppend` | src/core/state_manager.py:903-929 | leaving the screen entered last and entering another keeps the exit and enter calls alternating |
| `Flow.StateManager.constructor` | src/core/state_manager.py:854-883 | the manager afterwards is `InitialFlow` |
| `Flow.StateManager.ChangeState` | src/core/state_manager.py:903-929 | the manager afterwards is `ChangeScreen` of the one before |
| `Menu.SelectFacts` | src/core/state_manager.py:786-791 | choosing an option keeps the highlight; it leaves only for character select and only from option 0, and only option 1 posts quit |
| `Menu.Select` | src/core/state_manager.py:786-791 | `Menu.SelectFacts`: only option 0 leaves, for character select, and only option 1 posts quit |
| `Menu.MenuEvent` | src/core/state_manager.py:755-784 | `Menu.MenuEventFacts` and `Menu.MenuWrapInverse`: the highlight stays on one of the two options and wraps both ways; the menu leaves only for character select from option 0; only option 1 posts quit |
| `Menu.MenuEventFacts` | src/core/state_manager.py:755-791 | the highlight stays on one of the two options; the menu leaves only for character select and only from option 0; only option 1 posts quit |
| `Menu.MenuWrapInverse` | src/core/state_manager.py:759-762 | up then down, and down then up, bring the highlight back: the option wraps modulo 2 both ways |
| `Menu.SimpleMenu.constructor` | src/core/state_manager.py:719-743 | the first option is highlighted and no quit is posted |
| `Menu.SimpleMenu.SelectOption` | src/core/state_manager.py:786-791 | the menu afterwards is `Select` of the one before |
| `Menu.SimpleMenu.HandleEvent` | src/core/state_manager.py:755-784 | menu and answer are `MenuEvent` of the menu before |
| `CharacterSelection.MoveCursorFacts` | src/ui/character_select.py:180-187 | a cursor moves by the direction modulo 3 only for its unconfirmed player; nothing else changes |
| `CharacterSelection.MoveCursorInverse` | src/ui/character_select.py:180-187 | moving one way then the other brings the cursor back |
| `CharacterSelection.ConfirmFacts` | src/ui/character_select.py:189-209 | confirming copies the cursor into an empty pick; BOTH_CONFIRMED with a 1 s timer exactly when both have picked |
| `CharacterSelection.ConfirmIdempotent` | src/ui/character_select.py:189-200 | confirming twice is confirming once |
| `CharacterSelection.PickEventIgnoredUnlessSelecting` | src/ui/character_select.py:129-130 | outside SELECTING every event is ignored and not consumed |
| `CharacterSelection.PickEventFacts` | src/ui/character_select.py:124-178 | events keep the screen valid; the manager stays or, on Escape while selecting, returns to the menu |
| `CharacterSelection.PickUpdateFacts` | src/ui/character_select.py:227-238 | when the timer runs out after both picks, the manager holds both picks and moves to stage select; otherwise it is untouched |
| `CharacterSelection.CursorMoved` | src/ui/character_select.py:180-187 | `CharacterSelection.MoveCursorFacts` and `CharacterSelection.MoveCursorInverse` |
| `CharacterSelection.Roster` | src/ui/character_select.py:49-53 | Warrior, Speedster, Heavy, in screen order; `CharacterSelection.PickUpdateFacts` stores the picks through it |
| `CharacterSelection.Confirm` | src/ui/character_select.py:189-200 | `CharacterSelection.ConfirmFacts` and `CharacterSelection.ConfirmIdempotent` |
| `CharacterSelection.CheckBoth` | src/ui/character_select.py:202-209 | BOTH_CONFIRMED with a 1 s timer exactly when both have picked, as `CharacterSelection.ConfirmFacts` states after a confirmation |
| `CharacterSelection.ResetPicks` | src/ui/character_select.py:106-116 | cursors home, no picks, SELECTING; `CharacterSelection.CharacterSelect.Enter` proves the screen valid after it |
| `CharacterSelection.JoyMove` | src/ui/character_select.py:165-176 | a stick push past 0.5 moves the cursor only once more than 200 ms have passed since the last move; `CharacterSelection.PickEventFacts` proves the screen stays valid |
| `CharacterSelection.PickEvent` | src/ui/character_select.py:125-178 | `CharacterSelection.PickEventFacts` and `CharacterSelection.PickEventIgnoredUnlessSelecting` |
| `CharacterSelection.PickUpdate` | src/ui/character_select.py:225-238 | `CharacterSelection.PickUpdateFacts` |
| `CharacterSelection.CharacterSelect.constructor` | src/ui/character_select.py:42-103 | both cursors home, no picks, SELECTING |
| `CharacterSelection.CharacterSelect.Enter` | src/ui/character_select.py:105-116 | the screen afterwards is `ResetPicks` of the one before, and valid |
| `CharacterSelection.CharacterSelect.MoveCursor` | src/ui/character_select.py:180-187 | the screen afterwards is `CursorMoved` of the one before |
| `CharacterSelection.CharacterSelect.CheckBothSelected` | src/ui/character_select.py:202-209 | the screen afterwards is `CheckBoth` of the one before |
| `CharacterSelection.CharacterSelect.ConfirmSelection` | src/ui/character_select.py:189-200 | the screen afterwards is `Confirm` of the one before |
| `CharacterSelection.CharacterSelect.HandleEvent` | src/ui/character_select.py:124-178 | screen, manager and answer are `PickEvent` of those before |
| `CharacterSelection.CharacterSelect.Update` | src/ui/character_select.py:227-238 | screen and manager are `PickUpdate` of those before |
| `StageSelection.CursorMovedInverse` | src/ui/stage_select.py:163-166 | the cursor wraps modulo 2, stays on a stage, and moving back undoes a move |
| `StageSelection.StageEventIgnoredAfterConfirm` | src/ui/stage_select.py:121-122 | after a confirmation every event is ignored and not consumed |
| `StageSelection.StageEventFacts` | src/ui/stage_select.py:116-162 | events keep the screen valid; a confirmation fixes the stage under the cursor with a 1 s timer; the manager stays or, on Escape, returns to character select |
| `StageSelection.StageUpdateFacts` | src/ui/stage_select.py:187-198 | when the timer runs out after a confirmation the manager holds the stage and moves to the versus screen; otherwise it is untouched |
| `StageSelection.CursorMoved` | src/ui/stage_select.py:163-166 | `StageSelection.CursorMovedInverse`: the cursor wraps modulo 2 and moving back undoes a move |
| `StageSelection.StageAt` | src/ui/stage_select.py:39-56 | Plains first, then Battlefield; `StageSelection.StageUpdateFacts` stores the pick through it |
| `StageSelection.Confirmed` | src/ui/stage_select.py:168-173 | the stage under the cursor confirmed with a 1 s timer, as `StageSelection.StageEventFacts` states |
| `StageSelection.ResetStage` | src/ui/stage_select.py:102-108 | the cursor back to 0, nothing confirmed, timer 0, as `StageSelection.StageSelect.Enter` states |
| `StageSelection.StageEvent` | src/ui/stage_select.py:117-162 | `StageSelection.StageEventFacts` and `StageSelection.StageEventIgnoredAfterConfirm` |
| `StageSelection.StageUpdate` | src/ui/stage_select.py:189-198 | `StageSelection.StageUpdateFacts` |
| `StageSelection.StageSelect.constructor` | src/ui/stage_select.py:30-96 | the cursor on the first stage, nothing confirmed, no timer |
| `StageSelection.StageSelect.Enter` | src/ui/stage_select.py:102-108 | the cursor back to 0, nothing confirmed, timer 0 |
| `StageSelection.StageSelect.MoveCursor` | src/ui/stage_select.py:163-166 | the screen afterwards is `CursorMoved` of the one before |
| `StageSelection.StageSelect.ConfirmSelection` | src/ui/stage_select.py:168-173 | the screen afterwards is `Confirmed` of the one before |
| `StageSelection.StageSelect.HandleEvent` | src/ui/stage_select.py:116-162 | screen, manager and answer are `StageEvent` of those before |
| `StageSelection.StageSelect.Update` | src/ui/stage_select.py:187-198 | screen and manager are `StageUpdate` of those before |
| `Engine.StepsFor` | src/core/game_engine.py:78-88 | no step iff less than one step is stored; what stays is under one step, non-negative from a non-negative start; one step fewer would leave a whole step |
| `Engine.StepsForTakeOne` | src/core/game_engine.py:80-88 | taking one step away pays out one step fewer |
| `Engine.DrainIsStepsFor` | src/core/game_engine.py:80-88 | the repeated subtraction agrees with the closed form, and what stays plus the steps paid out is what went in |
| `Engine.Drain` | src/core/game_engine.py:80-88 | reference definition: the loop's repeated subtraction of one step; `Engine.DrainIsStepsFor` proves it equals `StepsFor` |
| `Engine.GameEngine.constructor` | src/core/game_engine.py:26-49 | an empty accumulator and no state manager |
| `Engine.GameEngine.SetStateManager` | src/core/game_engine.py:64-68 | a manager is attached and nothing else changes |
| `Engine.GameEngine.Update` | src/core/game_engine.py:70-96 | one input poll; `StepsFor(acc + dt)` updates of exactly one step each, handed on only with a manager; the accumulator keeps what is left |
| `WinScreen.Pad2` | src/ui/win_screen.py:360 | at least two characters; exactly two with no sign iff the number is in 0..99 |
| `WinScreen.Seconds` | src/ui/win_screen.py:358-359 | the seconds lie in 0..59 and 60 times the minutes plus them is the floor of the time |
| `WinScreen.Minutes` | src/ui/win_screen.py:358 | the floor of the time over 60; `WinScreen.Seconds` and `WinScreen.FormatTimeRoundTrip` state it with the seconds |
| `WinScreen.DigitChar` | src/ui/win_screen.py:360 | a digit's character lies between '0' and '9' and reads back as the digit |
| `WinScreen.Digits` | src/ui/win_screen.py:360 | at least one digit and nothing else; one digit exactly below 10, two exactly in 10..99 |
| `WinScreen.Decimal` | src/ui/win_screen.py:360 | Python's `str` of an int; `WinScreen.Pad2` states its widths |
| `WinScreen.ParseDigits` | src/ui/win_screen.py:360 | reference reading of a digit string; `WinScreen.ParseDigitsRoundTrip` proves it inverts `Digits` |
| `WinScreen.FormatTime` | src/ui/win_screen.py:354-360 | at least five characters with the colon third from the end |
| `WinScreen.ParseDigitsRoundTrip` | src/ui/win_screen.py:360 | reading a number's digits back gives the number |
| `WinScreen.Pad2RoundTrip` | src/ui/win_screen.py:360 | on 0..99 the padded form is two digits that read back as the number |
| `WinScreen.FormatTimeRoundTrip` | src/ui/win_screen.py:354-360 | under 100 minutes the text is exactly `MM:SS`, whose fields read back as the minutes and seconds of the time |

## Left out

- **Rendering, camera, sprites, animation and audio.** Every `render*` method, camera following, image loading, animation frames and sounds are output with nothing to state.
- **Stage dynamics, particles and weather.**
  - `GameplayState.update` also calls the stage's own `update`, the KO particles and the camera.
  - Plains clouds, grass, lighting, snow and confetti, and the win screen's particles, draw random numbers and only feed drawing.
- **Plains wind.** The constructor draws the wind direction and strength at random; the model takes them as constructor arguments.
- `Stages.PlainsGravity` and `Stages.Stage.Plains`: the wind strength is held fixed for the whole match. The source's weather update multiplies it by a gust factor at random moments and later redraws it (src/stages/plains.py:768-787, run every frame from src/core/state_manager.py:331), and the airborne push at src/stages/plains.py:656-658 reads the current value. In the model the airborne push always uses the strength drawn at construction, so it does not capture how the push changes during and after a gust.
- **Floating point.** Positions, speeds and timers are exact reals, so rounding is not modelled. `1/60` is an exact real, so the accumulator's float drift is not modelled.
- **`cos`, `sin` and `** 1.5`.** These are three functions in a `Numerics` value. Lemmas that need a fact about them, such as a non-negative power, take it as a precondition.
- **Device plumbing:**
  - joystick hot-plug, player assignment, key mapping and key polling;
  - `InputManager.update`, `handle_event`, `configure_keys` and the display strings.

  A keyboard poll arrives as the six mapped key states, and a joystick poll as its two axes and two buttons. A screen event carries the player id the manager resolves for its stick, and the millisecond clock reading taken when it is handled.
- **Legacy `pygame.Rect` stages and the `Hitbox`/`Hurtbox` stub classes.** These are paths the arena stages never take.
- **Hitbox removal by dictionary equality.** `list.remove` is modelled as removal of the flagged entries. The two differ only when an owner holds two boxes with identical contents.
- **`is_in_hitstun` and the visual timers.** `is_in_hitstun`, hit flash and screen shake are written but never read by the simulation.
- **`Character.update`'s `coyote_time`.** It is never given a positive value. `FighterFacts.JumpNeedsGround` states the consequence.
- **`get_stage_info` dictionaries.** Only their counts, name and size are modelled, as `Stages.Info`. The Plains override reads a key it never defines.
- **Screen `enter` and `exit`.**
  - The state manager records each `exit` and `enter` as an entry in a hook log. It does not run the screens themselves.
  - `GameplayState.enter` is modelled as building a fresh gameplay object (`Gameplay.GameplayState.Enter`).
  - The versus screen, the win screen's own handlers, `src/ui/main_menu.py` and `main.py` are not part of this model.
- **The `TRANSITIONING` phase of character select.** It is declared but never entered.
- **Debug output, the FPS counter and pause queries.**
- **`Matches.CheckMatchEnd`** states only what the check leaves alone. What it decides is in `Matches.CheckMatchEndFacts`.
- **`Matches.KoPlayer`, `Matches.UpdateRespawnTimers`, `Matches.KoFromMap`, `Matches.DamageKo` and `Matches.Bookkeeping`** state only the frame in their own contracts. What each does to lives, timers and the screen is in `Matches.KoPlayerFacts`, `Matches.RespawnTimersFacts`, `Matches.KoFromMapStep`, `Matches.DamageKoStep` and `Matches.BookkeepingLosesOneLife`.
- **`Physics.BoxPass`** states only the lengths in its own contract. The per-box rules are in `PhysicsFacts.PassAgesBoxes` and `PhysicsFacts.BoxRules`.

## Findings

| source | as written | input that shows it | evidently intended | confidence | as-written member | corrected member |
|---|---|---|---|---|---|---|
| src/core/state_manager.py:398-403 | `winner_damage` is read from the loser and `loser_damage` from the winner | a match that times out with player 1 at 10% and player 2 at 50%: player 1 wins, and the record gives the winner 50% | each damage field from its own player | not executed | `Matches.ResultsAsWrittenSwapsDamage` | `Matches.Results` |

The match flow in the model (`Matches.CheckMatchEnd`, `Gameplay.GameplayState.TransitionToWinScreen`) stores the record as written. `Matches.Results` is the corrected record, and `Matches.ResultsAsWritten` is proved equal to it with the two damage fields exchanged.
