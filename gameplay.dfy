/** `GameplayState`: the fight screen as an object over the two `Character` objects, the
    stage, the engine's resolver and the state manager. Each method is proved against the
    function of `Matches` that specifies it. */
module Gameplay {
  import opened Common
  import opened Moves
  import opened Fighters
  import opened Stages
  import opened Physics
  import opened Flow
  import opened Matches
  import Input
  import Characters
  import Resolver
  import PhysicsFacts

  /** The respawn entries of `done` applied in the order 1, 2; `update_respawn_timers`
      visits them in the dictionary's order, which `RespawnTicksCommute` makes immaterial. */
  ghost function Ticked(m: MatchView, done: set<int>, dt: real): MatchView
  {
    var a := if 1 in done then RespawnTick(m, 1, dt) else m;
    if 2 in done then RespawnTick(a, 2, dt) else a
  }

  lemma TickedStep(m: MatchView, done: set<int>, p: int, dt: real)
    requires p == 1 || p == 2
    requires p !in done && done <= {1, 2}
    ensures Ticked(m, done + {p}, dt) == RespawnTick(Ticked(m, done, dt), p, dt)
  {
    if p == 1 && 2 in done {
      RespawnTicksCommute(m, dt);
    }
  }

  lemma TickedAll(m: MatchView, dt: real)
    requires m.respawn.Keys <= {1, 2}
    ensures Ticked(m, m.respawn.Keys, dt) == UpdateRespawnTimers(m, dt)
  {
    var a := if 1 in m.respawn then RespawnTick(m, 1, dt) else m;
    assert a == RespawnTick(m, 1, dt);
    assert 2 !in m.respawn ==> 2 !in a.respawn;
  }

  /** `Tick` as the sequence of its stages. */
  lemma TickStages(m: MatchView, pad1: Input.Pad, pad2: Input.Pad, s: StageView, dt: real, num: Numerics)
    requires WellFormed(s)
    ensures var m1 := UpdateRespawnTimers(Clock(m, dt), dt);
            var u := CharacterUpdates(m1, pad1, pad2, dt);
            var r := Tick(m, pad1, pad2, s, dt, num);
            r.Ok? == u.Ok? &&
            (u.Ok? ==> var st := Step(u.value.0, u.value.1, s, dt, num);
                       r.value == Bookkeeping(m1.(p1 := st.0, p2 := st.1), st.2))
  {
  }

  class GameplayState {
    const p1: Characters.Character
    const p2: Characters.Character
    const stage: Stage
    const physics: Resolver.PhysicsManager
    const manager: StateManager
    var matchTimer: real
    var matchStartTime: real
    var respawnTimer: map<int, real>
    /** `respawn_positions[1]` and `respawn_positions[2]`. */
    var spawn1: (real, real)
    var spawn2: (real, real)

    function View(): MatchView
      reads this, p1, p2, manager
    {
      MatchView(p1.View(), p2.View(), matchTimer, matchStartTime, respawnTimer, spawn1, spawn2, manager.View())
    }

    /** Two distinct players numbered 1 and 2, a stage whose gravity can be applied, and
        respawn timers only for those two ids. */
    ghost predicate Valid()
      reads this, p1, p2, stage
    {
      p1 != p2 && p1.playerId == 1 && p2.playerId == 2 && WellFormed(stage.View()) &&
      respawnTimer.Keys <= {1, 2}
    }

    constructor (c1: Characters.Character, c2: Characters.Character, stage: Stage,
                 physics: Resolver.PhysicsManager, manager: StateManager,
                 spawn1: (real, real), spawn2: (real, real))
      ensures p1 == c1 && p2 == c2 && this.stage == stage && this.physics == physics && this.manager == manager
      ensures matchTimer == MatchLength && matchStartTime == 0.0 && respawnTimer == map[]
      ensures this.spawn1 == spawn1 && this.spawn2 == spawn2
    {
      p1 := c1;
      p2 := c2;
      this.stage := stage;
      this.physics := physics;
      this.manager := manager;
      matchTimer := MatchLength;
      matchStartTime := 0.0;
      respawnTimer := map[];
      this.spawn1 := spawn1;
      this.spawn2 := spawn2;
    }

    /** `enter`: the stage from the stage pick (the Plains wind, drawn at random by the
        stage, given as arguments), the two picked characters at its spawn points, a fresh
        clock. A missing pick raises. */
    static method Enter(manager: StateManager, physics: Resolver.PhysicsManager,
                        windDirection: int, windStrength: real)
      returns (r: Result<GameplayState>)
      requires windDirection == -1 || windDirection == 1
      ensures r.Ok? <==> manager.selectedStage.Some? && manager.selectedCharacters.Some?
      ensures r.Ok? ==> fresh(r.value) && fresh(r.value.p1) && fresh(r.value.p2) && fresh(r.value.stage)
      ensures r.Ok? ==> r.value.Valid() && r.value.manager == manager && r.value.physics == physics
      ensures r.Ok? ==> r.value.View() == StartMatch(manager.View(), r.value.stage.View()).value
      ensures r.Ok? ==> r.value.stage.kind == (if manager.selectedStage.value == BattlefieldChoice
                                              then BattlefieldStage else PlainsStage(windDirection, windStrength))
    {
      if manager.selectedStage.None? {
        return Err(NoSelection);
      }
      var stage := SetupStage(manager.selectedStage.value, windDirection, windStrength);
      if manager.selectedCharacters.None? {
        return Err(NoSelection);
      }
      var (a1, a2) := manager.selectedCharacters.value;
      var sp1, sp2 := FallbackSpawn1, FallbackSpawn2;
      if |stage.spawnPoints| >= 2 {
        sp1, sp2 := stage.spawnPoints[0], stage.spawnPoints[1];
      }
      var c1 := NewPlayer(a1, sp1, 1);
      var c2 := NewPlayer(a2, sp2, 2);
      var g := new GameplayState(c1, c2, stage, physics, manager, sp1, sp2);
      r := Ok(g);
    }

    /** `setup_stage` for a stage pick. */
    static method SetupStage(choice: StageChoice, windDirection: int, windStrength: real) returns (stage: Stage)
      requires windDirection == -1 || windDirection == 1
      ensures fresh(stage) && WellFormed(stage.View())
      ensures stage.kind == if choice == BattlefieldChoice then BattlefieldStage else PlainsStage(windDirection, windStrength)
    {
      if choice == BattlefieldChoice {
        stage := new Stage.Battlefield();
      } else {
        stage := new Stage.Plains(windDirection, windStrength);
      }
    }

    /** A character of the picked class at its spawn point, with `enter`'s reset applied. */
    static method NewPlayer(a: Archetype, pos: (real, real), id: int) returns (c: Characters.Character)
      ensures fresh(c) && c.View() == Reset(NewFighter(a, pos.0, pos.1, id))
    {
      c := new Characters.Character(a, pos.0, pos.1, id);
      c.damagePercent := 0.0;
      c.lives := StartingLives;
      c.body := c.body.(vx := 0.0, vy := 0.0);
      c.body := c.body.(onGround := true);
    }

    /** `update`, with the two players' controller snapshots as arguments; false where a
        character's update raises. */
    method Update(dt: real, pad1: Input.Pad, pad2: Input.Pad, num: Numerics) returns (ok: bool)
      requires Valid()
      modifies this, p1, p2, physics, manager
      ensures ok == Tick(old(View()), pad1, pad2, stage.View(), dt, num).Ok?
      ensures ok ==> View() == Tick(old(View()), pad1, pad2, stage.View(), dt, num).value && Valid()
    {
      ghost var m := View();
      TickStages(m, pad1, pad2, stage.View(), dt, num);
      ok := Prepare(dt, pad1, pad2);
      if ok {
        Resolve(dt, num);
      }
    }

    /** The part of `update` before the resolver: the clock, the respawn timers and the
        characters' own updates. */
    method Prepare(dt: real, pad1: Input.Pad, pad2: Input.Pad) returns (ok: bool)
      requires Valid()
      modifies this, p1, p2
      ensures var m1 := Matches.UpdateRespawnTimers(Matches.Clock(old(View()), dt), dt);
              var u := CharacterUpdates(m1, pad1, pad2, dt);
              ok == u.Ok? && (ok ==> View() == m1.(p1 := u.value.0, p2 := u.value.1) && Valid())
    {
      ghost var m := View();
      matchTimer := Max(0.0, matchTimer - dt);
      matchStartTime := matchStartTime + dt;
      assert View() == Clock(m, dt);
      UpdateRespawnTimers(dt);
      ok := UpdateCharacters(dt, pad1, pad2);
    }

    /** The part of `update` from the resolver on: its step over both characters, then the
        bookkeeping on the KO map it returns. */
    method Resolve(dt: real, num: Numerics)
      requires Valid()
      modifies this, p1, p2, physics, manager
      ensures var st := Step(old(p1.View()), old(p2.View()), stage.View(), dt, num);
              View() == Bookkeeping(old(View()).(p1 := st.0, p2 := st.1), st.2) && Valid()
    {
      var kos := physics.Update(dt, p1, p2, stage, num);
      HandleKos(kos);
    }

    /** The characters' own updates, skipped while a player's respawn timer runs. */
    method UpdateCharacters(dt: real, pad1: Input.Pad, pad2: Input.Pad) returns (ok: bool)
      requires Valid()
      modifies p1, p2
      ensures ok == CharacterUpdates(old(View()), pad1, pad2, dt).Ok?
      ensures ok ==> (p1.View(), p2.View()) == CharacterUpdates(old(View()), pad1, pad2, dt).value
    {
      ok := true;
      if 1 !in respawnTimer {
        ok := p1.Update(pad1, dt);
        if !ok {
          return;
        }
      }
      if 2 !in respawnTimer {
        ok := p2.Update(pad2, dt);
      }
    }

    /** The KOs the resolver reported, in the order it recorded them (player 1 moves
        first), then the damage KOs, then the match-end check. */
    method HandleKos(kos: map<int, Ko>)
      requires Valid()
      modifies this, p1, p2, manager
      ensures View() == Bookkeeping(old(View()), kos) && Valid()
    {
      BlastKos(kos);
      DamageKos();
      CheckMatchEnd();
    }

    /** The loop over the resolver's KO map. */
    method BlastKos(kos: map<int, Ko>)
      requires Valid()
      modifies this`respawnTimer, p1, p2, manager
      ensures View() == KoFromMap(old(View()), kos) && Valid()
    {
      ghost var m := View();
      if 1 in kos {
        KoPlayer(1);
      }
      assert View() == if 1 in kos then Matches.KoPlayer(m, 1) else m;
      if 2 in kos {
        KoPlayer(2);
      }
    }

    /** The damage KOs of both players, player 1 first. */
    method DamageKos()
      requires Valid()
      modifies this`respawnTimer, p1, p2, manager
      ensures View() == DamageKo(DamageKo(old(View()), 1), 2) && Valid()
    {
      if 1 !in respawnTimer && p1.damagePercent >= DamageKoPercent {
        KoPlayer(1);
      }
      if 2 !in respawnTimer && p2.damagePercent >= DamageKoPercent {
        KoPlayer(2);
      }
    }

    /** `update_respawn_timers`: each entry drops by `dt`; at 0 the player respawns and the
        entry goes. */
    method UpdateRespawnTimers(dt: real)
      requires Valid()
      modifies this`respawnTimer, p1`body, p2`body
      ensures View() == Matches.UpdateRespawnTimers(old(View()), dt) && Valid()
    {
      ghost var m := View();
      var players := respawnTimer.Keys;
      while players != {}
        invariant players <= m.respawn.Keys && Valid()
        invariant View() == Ticked(m, m.respawn.Keys - players, dt)
        decreases players
      {
        var p :| p in players;
        TickedStep(m, m.respawn.Keys - players, p, dt);
        TickRespawnTimer(p, dt);
        assert m.respawn.Keys - (players - {p}) == (m.respawn.Keys - players) + {p};
        players := players - {p};
      }
      TickedAll(m, dt);
    }

    /** One entry of `update_respawn_timers`. */
    method TickRespawnTimer(p: int, dt: real)
      requires p == 1 || p == 2
      requires Valid() && p in respawnTimer
      modifies this`respawnTimer, p1`body, p2`body
      ensures View() == RespawnTick(old(View()), p, dt) && Valid()
    {
      respawnTimer := respawnTimer[p := respawnTimer[p] - dt];
      if respawnTimer[p] <= 0.0 {
        RespawnPlayer(p);
        respawnTimer := respawnTimer - {p};
      }
    }

    /** `respawn_player`: back to the player's respawn position, at rest. */
    method RespawnPlayer(p: int)
      requires p == 1 || p == 2
      requires p1 != p2
      modifies p1`body, p2`body
      ensures View() == Matches.RespawnPlayer(old(View()), p)
    {
      var pos := if p == 1 then spawn1 else spawn2;
      if p == 1 {
        p1.body := p1.body.(x := pos.0, y := pos.1, vx := 0.0, vy := 0.0);
      } else {
        p2.body := p2.body.(x := pos.0, y := pos.1, vx := 0.0, vy := 0.0);
      }
    }

    /** `ko_player`. */
    method KoPlayer(player: int)
      requires player == 1 || player == 2
      requires Valid()
      modifies this`respawnTimer, p1, p2, manager
      ensures View() == Matches.KoPlayer(old(View()), player) && Valid()
    {
      var character := if player == 1 then p1 else p2;
      if player in respawnTimer {
        return;
      }
      character.LoseLife();
      if character.lives <= 0 {
        CheckMatchEnd();
        return;
      }
      respawnTimer := respawnTimer[player := RespawnDelay];
      if player == 1 {
        p1.body := p1.body.(x := OffScreen1.0, y := OffScreen1.1);
      } else {
        p2.body := p2.body.(x := OffScreen2.0, y := OffScreen2.1);
      }
    }

    /** `check_match_end`. */
    method CheckMatchEnd()
      modifies manager
      ensures View() == Matches.CheckMatchEnd(old(View()))
    {
      var winner: Option<int> := None;
      if p1.lives <= 0 {
        winner := Some(2);
      } else if p2.lives <= 0 {
        winner := Some(1);
      } else if matchTimer <= 0.0 {
        if p1.damagePercent < p2.damagePercent {
          winner := Some(1);
        } else if p2.damagePercent < p1.damagePercent {
          winner := Some(2);
        } else {
          winner := Some(1);
        }
      }
      if winner.Some? {
        var w := winner.value;
        var (wc, lc) := if w == 1 then (p1.archetype, p2.archetype) else (p2.archetype, p1.archetype);
        TransitionToWinScreen(w, wc, lc);
      }
    }

    /** `transition_to_win_screen`, as written: the winner's damage field holds the other
        player's percent and the loser's field the winner's own. */
    method TransitionToWinScreen(winner: int, winnerCharacter: Archetype, loserCharacter: Archetype)
      requires winner == 1 || winner == 2
      modifies manager
      ensures manager.View() == ChangeScreen(old(manager.View()).(matchResults :=
                Some(MatchResults(winner, 3 - winner, winnerCharacter, loserCharacter, matchStartTime,
                                  Player(View(), 3 - winner).damagePercent, Player(View(), winner).damagePercent))),
                WinScreen)
    {
      var winnerDamage := if winner == 1 then p2.damagePercent else p1.damagePercent;
      var loserDamage := if winner == 1 then p1.damagePercent else p2.damagePercent;
      manager.matchResults := Some(MatchResults(winner, 3 - winner, winnerCharacter, loserCharacter,
                                                matchStartTime, winnerDamage, loserDamage));
      manager.ChangeState(WinScreen);
    }
  }
}
