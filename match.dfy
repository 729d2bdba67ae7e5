/** The match bookkeeping of `GameplayState` as functions on a value: the clock, KOs and
    lives, respawn timers, the winner rule and the results handed to the win screen,
    around the characters' own update and the resolver's step. */
module Matches {
  import opened Common
  import opened Moves
  import opened Fighters
  import opened Stages
  import opened Physics
  import opened Flow
  import Input

  const MatchLength: real := 180.0
  const RespawnDelay: real := 2.0
  const DamageKoPercent: real := 300.0
  const StartingLives: int := 3

  /** The fallback spawn points, used when the stage has fewer than two. */
  const FallbackSpawn1: (real, real) := (300.0, 500.0)
  const FallbackSpawn2: (real, real) := (900.0, 500.0)

  /** Where a KO'd player waits while its respawn timer runs. */
  const OffScreen1: (real, real) := (-500.0, 300.0)
  const OffScreen2: (real, real) := (1780.0, 300.0)

  /** The gameplay screen's state and the state manager it reports to: both fighters, the
      clock counting down, the time played, the respawn timers by player id and the
      respawn positions. */
  datatype MatchView = MatchView(p1: Fighter, p2: Fighter, timer: real, elapsed: real,
                                 respawn: map<int, real>, spawn1: (real, real), spawn2: (real, real),
                                 flow: FlowView)

  /** `player1_character if player == 1 else player2_character`. */
  function Player(m: MatchView, p: int): Fighter
  {
    if p == 1 then m.p1 else m.p2
  }

  function WithPlayer(m: MatchView, p: int, f: Fighter): (r: MatchView)
    ensures Player(r, p) == f && r.timer == m.timer && r.elapsed == m.elapsed
    ensures r.respawn == m.respawn && r.flow == m.flow && r.spawn1 == m.spawn1 && r.spawn2 == m.spawn2
  {
    if p == 1 then m.(p1 := f) else m.(p2 := f)
  }

  function Place(f: Fighter, pos: (real, real)): Fighter
  {
    f.(body := f.body.(x := pos.0, y := pos.1))
  }

  // ---------------------------------------------------------------- match end

  /** `check_match_end`'s decision: a player out of lives loses, player 1 first; when the
      clock has run out, the lower percent wins and a tie goes to player 1. */
  function Winner(lives1: int, lives2: int, dp1: real, dp2: real, timer: real): (w: Option<int>)
    ensures w == Some(2) <==> lives1 <= 0 || (lives2 > 0 && timer <= 0.0 && dp2 < dp1)
    ensures w == Some(1) <==> lives1 > 0 && (lives2 <= 0 || (timer <= 0.0 && dp1 <= dp2))
    ensures w.None? <==> lives1 > 0 && lives2 > 0 && timer > 0.0
  {
    if lives1 <= 0 then Some(2)
    else if lives2 <= 0 then Some(1)
    else if timer <= 0.0 then
      if dp1 < dp2 then Some(1) else if dp2 < dp1 then Some(2) else Some(1)
    else None
  }

  /** The results record with each damage field taken from its own player. */
  function Results(m: MatchView, w: int): (r: MatchResults)
    requires w == 1 || w == 2
    ensures r.winner == w && r.loser == 3 - w && r.loser != r.winner && (r.loser == 1 || r.loser == 2)
    ensures r.winnerCharacter == Player(m, w).archetype && r.loserCharacter == Player(m, r.loser).archetype
    ensures r.winnerDamage == Player(m, r.winner).damagePercent
    ensures r.loserDamage == Player(m, r.loser).damagePercent
    ensures r.matchTime == m.elapsed
  {
    MatchResults(w, 3 - w, Player(m, w).archetype, Player(m, 3 - w).archetype, m.elapsed,
                 Player(m, w).damagePercent, Player(m, 3 - w).damagePercent)
  }

  /** The results record as `transition_to_win_screen` builds it: the two damage fields
      take each other's player. */
  function ResultsAsWritten(m: MatchView, w: int): (r: MatchResults)
    requires w == 1 || w == 2
    ensures r.winnerDamage == Player(m, 3 - w).damagePercent
    ensures r.loserDamage == Player(m, w).damagePercent
    ensures var c := Results(m, w); r == c.(winnerDamage := c.loserDamage, loserDamage := c.winnerDamage)
  {
    MatchResults(w, 3 - w, Player(m, w).archetype, Player(m, 3 - w).archetype, m.elapsed,
                 if w == 1 then m.p2.damagePercent else m.p1.damagePercent,
                 if w == 1 then m.p1.damagePercent else m.p2.damagePercent)
  }

  /** A timed-out match that player 1 wins at 10% against 50%: the record says the winner
      ended at 50%. */
  lemma ResultsAsWrittenSwapsDamage(f1: Fighter, f2: Fighter, flow: FlowView)
    requires f1.lives == 3 && f2.lives == 3 && f1.damagePercent == 10.0 && f2.damagePercent == 50.0
    ensures var m := MatchView(f1, f2, 0.0, 180.0, map[], FallbackSpawn1, FallbackSpawn2, flow);
            Winner(m.p1.lives, m.p2.lives, m.p1.damagePercent, m.p2.damagePercent, m.timer) == Some(1) &&
            ResultsAsWritten(m, 1).winnerDamage == 50.0 && m.p1.damagePercent == 10.0
  {
  }

  /** `transition_to_win_screen`: the results, as the program builds them, go to the state
      manager, then the win screen. */
  function TransitionToWinScreen(m: MatchView, w: int): (r: MatchView)
    requires w == 1 || w == 2
  {
    m.(flow := ChangeScreen(m.flow.(matchResults := Some(ResultsAsWritten(m, w))), WinScreen))
  }

  /** `check_match_end`. */
  function CheckMatchEnd(m: MatchView): (r: MatchView)
    ensures r.p1 == m.p1 && r.p2 == m.p2 && r.timer == m.timer && r.elapsed == m.elapsed
    ensures r.respawn == m.respawn && r.spawn1 == m.spawn1 && r.spawn2 == m.spawn2
  {
    match Winner(m.p1.lives, m.p2.lives, m.p1.damagePercent, m.p2.damagePercent, m.timer)
    case None => m
    case Some(w) => TransitionToWinScreen(m, w)
  }

  /** Once a winner is decided, the win screen is current and the state manager holds the
      record as the program builds it: winner, loser, characters and time as in `Results`,
      but the winner's damage field holds the loser's percent and the other way round.
      Otherwise nothing changes. */
  lemma CheckMatchEndFacts(m: MatchView)
    requires Nested(m.flow)
    ensures var r := CheckMatchEnd(m);
            var w := Winner(m.p1.lives, m.p2.lives, m.p1.damagePercent, m.p2.damagePercent, m.timer);
            Nested(r.flow) &&
            (w.None? ==> r == m) &&
            (w.Some? ==> r.flow.current == Some(WinScreen) && r.flow.matchResults.Some? &&
                         var c := Results(m, w.value);
                         r.flow.matchResults.value == c.(winnerDamage := c.loserDamage, loserDamage := c.winnerDamage) &&
                         r.flow.matchResults.value.winnerDamage == Player(m, 3 - w.value).damagePercent)
  {
    var w := Winner(m.p1.lives, m.p2.lives, m.p1.damagePercent, m.p2.damagePercent, m.timer);
    if w.Some? {
      ChangeScreenNested(m.flow.(matchResults := Some(ResultsAsWritten(m, w.value))), WinScreen);
    }
  }

  // ---------------------------------------------------------------- KOs and respawns

  /** `ko_player`: nothing for a player already respawning; otherwise one life goes, and
      either the match-end check runs (no lives left) or a 2-second respawn timer starts
      with the player parked off-screen. */
  function KoPlayer(m: MatchView, p: int): (r: MatchView)
    ensures r.timer == m.timer && r.elapsed == m.elapsed && r.spawn1 == m.spawn1 && r.spawn2 == m.spawn2
    ensures r.respawn.Keys <= m.respawn.Keys + {p}
  {
    if p in m.respawn then m
    else
      var m1 := WithPlayer(m, p, LoseLife(Player(m, p)));
      if Player(m1, p).lives <= 0 then CheckMatchEnd(m1)
      else
        var m2 := m1.(respawn := m1.respawn[p := RespawnDelay]);
        if p == 1 then m2.(p1 := Place(m2.p1, OffScreen1)) else m2.(p2 := Place(m2.p2, OffScreen2))
  }

  /** The player KO'd loses exactly one life and its percent, the other player is
      untouched; a timer starts exactly when a life is left, and the last life ends the
      match. A player already respawning is left alone. */
  lemma KoPlayerFacts(m: MatchView, p: int)
    requires p == 1 || p == 2
    requires Nested(m.flow)
    ensures var r := KoPlayer(m, p);
            Nested(r.flow) && Player(r, 3 - p) == Player(m, 3 - p) &&
            (p in m.respawn ==> r == m) &&
            (p !in m.respawn ==>
               Player(r, p).lives == Player(m, p).lives - 1 && Player(r, p).damagePercent == 0.0 &&
               (Player(r, p).lives > 0 ==> r.respawn == m.respawn[p := RespawnDelay] && r.flow == m.flow) &&
               (Player(r, p).lives <= 0 ==> r.respawn == m.respawn && r.flow.current == Some(WinScreen)))
  {
    if p !in m.respawn {
      var m1 := WithPlayer(m, p, LoseLife(Player(m, p)));
      if Player(m1, p).lives <= 0 {
        CheckMatchEndFacts(m1);
      }
    }
  }

  /** KO'ing a player who still has a life left twice in a row is the same as once: the
      first KO starts its respawn timer. */
  lemma KoPlayerIdempotent(m: MatchView, p: int)
    requires p == 1 || p == 2
    requires Nested(m.flow) && p !in m.respawn && Player(m, p).lives > 1
    ensures KoPlayer(KoPlayer(m, p), p) == KoPlayer(m, p)
  {
    KoPlayerFacts(m, p);
  }

  /** `respawn_player`: back to the player's respawn position, at rest. */
  function RespawnPlayer(m: MatchView, p: int): (r: MatchView)
    requires p == 1 || p == 2
  {
    var pos := if p == 1 then m.spawn1 else m.spawn2;
    var f := Player(m, p);
    WithPlayer(m, p, f.(body := f.body.(x := pos.0, y := pos.1, vx := 0.0, vy := 0.0)))
  }

  /** One entry of `update_respawn_timers`. */
  function RespawnTick(m: MatchView, p: int, dt: real): (r: MatchView)
    requires p == 1 || p == 2
    ensures r.timer == m.timer && r.elapsed == m.elapsed && r.flow == m.flow
    ensures r.spawn1 == m.spawn1 && r.spawn2 == m.spawn2 && Player(r, 3 - p) == Player(m, 3 - p)
    ensures r.respawn - {p} == m.respawn - {p} && r.respawn.Keys <= m.respawn.Keys
  {
    if p !in m.respawn then m
    else
      var t := m.respawn[p] - dt;
      if t <= 0.0 then RespawnPlayer(m.(respawn := m.respawn[p := t]), p).(respawn := m.respawn - {p})
      else m.(respawn := m.respawn[p := t])
  }

  /** `update_respawn_timers` over the ids a match can hold. */
  function UpdateRespawnTimers(m: MatchView, dt: real): (r: MatchView)
    ensures r.timer == m.timer && r.elapsed == m.elapsed && r.spawn1 == m.spawn1 && r.spawn2 == m.spawn2
  {
    RespawnTick(RespawnTick(m, 1, dt), 2, dt)
  }

  /** The dictionary's iteration order does not matter: the two entries touch different
      players and different keys. */
  lemma RespawnTicksCommute(m: MatchView, dt: real)
    ensures RespawnTick(RespawnTick(m, 2, dt), 1, dt) == UpdateRespawnTimers(m, dt)
  {
  }

  /** Every timer drops by `dt`; one that reaches 0 is removed and its player placed at its
      respawn position at rest; no timer is added and nobody else moves. */
  lemma RespawnTimersFacts(m: MatchView, dt: real, p: int)
    requires p == 1 || p == 2
    ensures var r := UpdateRespawnTimers(m, dt);
            var pos := if p == 1 then m.spawn1 else m.spawn2;
            var f := Player(m, p);
            r.respawn.Keys <= m.respawn.Keys && r.flow == m.flow && r.timer == m.timer &&
            (p !in m.respawn ==> p !in r.respawn && Player(r, p) == f) &&
            (p in m.respawn && m.respawn[p] - dt > 0.0 ==>
               p in r.respawn && r.respawn[p] == m.respawn[p] - dt && Player(r, p) == f) &&
            (p in m.respawn && m.respawn[p] - dt <= 0.0 ==>
               p !in r.respawn && Player(r, p) == f.(body := f.body.(x := pos.0, y := pos.1, vx := 0.0, vy := 0.0)))
  {
    var a := RespawnTick(m, 1, dt);
    assert a.respawn.Keys <= m.respawn.Keys;
    assert (2 in a.respawn <==> 2 in m.respawn) && (2 in m.respawn ==> a.respawn[2] == m.respawn[2]);
  }

  /** The KO map's entries in the order the resolver inserted them: player 1 moves first. */
  function KoFromMap(m: MatchView, kos: map<int, Ko>): (r: MatchView)
    ensures r.timer == m.timer && r.elapsed == m.elapsed && r.spawn1 == m.spawn1 && r.spawn2 == m.spawn2
  {
    var a := if 1 in kos then KoPlayer(m, 1) else m;
    if 2 in kos then KoPlayer(a, 2) else a
  }

  /** The damage KO: 300% or more while not respawning. */
  function DamageKo(m: MatchView, p: int): (r: MatchView)
    ensures r.timer == m.timer && r.elapsed == m.elapsed && r.spawn1 == m.spawn1 && r.spawn2 == m.spawn2
  {
    if p !in m.respawn && Player(m, p).damagePercent >= DamageKoPercent then KoPlayer(m, p) else m
  }

  /** Everything `update` does after the resolver: blast-zone KOs, damage KOs, the match-end
      check. */
  function Bookkeeping(m: MatchView, kos: map<int, Ko>): (r: MatchView)
    ensures r.timer == m.timer && r.elapsed == m.elapsed && r.spawn1 == m.spawn1 && r.spawn2 == m.spawn2
  {
    CheckMatchEnd(DamageKo(DamageKo(KoFromMap(m, kos), 1), 2))
  }

  /** Player `p` came through a step untouched, respawn timer included. */
  predicate Same(m: MatchView, r: MatchView, p: int)
  {
    Nested(r.flow) && Player(r, p) == Player(m, p) && (p in r.respawn <==> p in m.respawn) &&
    (p in m.respawn ==> r.respawn[p] == m.respawn[p])
  }

  /** Player `p` lost a life in a step. */
  predicate Lost(m: MatchView, r: MatchView, p: int)
  {
    Nested(r.flow) && Player(r, p).lives == Player(m, p).lives - 1 && Player(r, p).damagePercent == 0.0
  }

  lemma KoStep(m: MatchView, p: int, q: int)
    requires (p == 1 || p == 2) && (q == 1 || q == 2) && Nested(m.flow)
    ensures p == q && q !in m.respawn ==> Lost(m, KoPlayer(m, q), p)
    ensures p != q || q in m.respawn ==> Same(m, KoPlayer(m, q), p)
  {
    KoPlayerFacts(m, q);
    if p != q {
      assert p == 3 - q;
    }
  }

  lemma KoFromMapStep(m: MatchView, kos: map<int, Ko>, p: int)
    requires (p == 1 || p == 2) && Nested(m.flow)
    ensures p in kos && p !in m.respawn ==> Lost(m, KoFromMap(m, kos), p)
    ensures !(p in kos && p !in m.respawn) ==> Same(m, KoFromMap(m, kos), p)
  {
    var a := if 1 in kos then KoPlayer(m, 1) else m;
    if 1 in kos { KoStep(m, p, 1); KoPlayerFacts(m, 1); }
    if 2 in kos { KoStep(a, p, 2); }
  }

  lemma DamageKoStep(m: MatchView, p: int, q: int)
    requires (p == 1 || p == 2) && (q == 1 || q == 2) && Nested(m.flow)
    ensures var hit := p == q && p !in m.respawn && Player(m, p).damagePercent >= DamageKoPercent;
            (hit ==> Lost(m, DamageKo(m, q), p)) && (!hit ==> Same(m, DamageKo(m, q), p))
  {
    if q !in m.respawn && Player(m, q).damagePercent >= DamageKoPercent {
      KoStep(m, p, q);
    }
  }

  /** In the bookkeeping after the resolver a player loses at most one life: exactly one
      when it crossed a blast zone or reached 300% while not respawning, none otherwise.
      A player who is respawning keeps its record and its timer. */
  lemma BookkeepingLosesOneLife(m: MatchView, kos: map<int, Ko>, p: int)
    requires p == 1 || p == 2
    requires Nested(m.flow)
    ensures var r := Bookkeeping(m, kos);
            var lost := p !in m.respawn && (p in kos || Player(m, p).damagePercent >= DamageKoPercent);
            Nested(r.flow) &&
            Player(r, p).lives == Player(m, p).lives - (if lost then 1 else 0) &&
            (p in m.respawn ==> Player(r, p) == Player(m, p) && p in r.respawn && r.respawn[p] == m.respawn[p])
  {
    var b := KoFromMap(m, kos);
    KoFromMapStep(m, kos, p);
    var c := DamageKo(b, 1);
    DamageKoStep(b, p, 1);
    var d := DamageKo(c, 2);
    DamageKoStep(c, p, 2);
    CheckMatchEndFacts(d);
    assert Player(Bookkeeping(m, kos), p) == Player(d, p) && Bookkeeping(m, kos).respawn == d.respawn;
  }

  // ---------------------------------------------------------------- the tick

  /** The clock: `max(0, t - dt)` left, `dt` more played. */
  function Clock(m: MatchView, dt: real): (r: MatchView)
  {
    m.(timer := Max(0.0, m.timer - dt), elapsed := m.elapsed + dt)
  }

  /** The characters' own update, skipped for a player with a respawn timer. */
  function CharacterUpdates(m: MatchView, pad1: Input.Pad, pad2: Input.Pad, dt: real): Result<(Fighter, Fighter)>
  {
    var q1 :- if 1 in m.respawn then Ok(m.p1) else Update(m.p1, pad1, dt);
    var q2 :- if 2 in m.respawn then Ok(m.p2) else Update(m.p2, pad2, dt);
    Ok((q1, q2))
  }

  /** `GameplayState.update`: the clock, the respawn timers, the characters' updates, the
      resolver's step over both characters, then the bookkeeping. Fails where a character's
      update raises. */
  function Tick(m: MatchView, pad1: Input.Pad, pad2: Input.Pad, s: StageView, dt: real, num: Numerics): (r: Result<MatchView>)
    requires WellFormed(s)
  {
    var m1 := UpdateRespawnTimers(Clock(m, dt), dt);
    var q :- CharacterUpdates(m1, pad1, pad2, dt);
    var (r1, r2, kos) := Step(q.0, q.1, s, dt, num);
    Ok(Bookkeeping(m1.(p1 := r1, p2 := r2), kos))
  }

  /** The clock never goes below zero, and counts down by `dt` until it gets there. */
  lemma TickClock(m: MatchView, pad1: Input.Pad, pad2: Input.Pad, s: StageView, dt: real, num: Numerics)
    requires WellFormed(s)
    ensures var r := Tick(m, pad1, pad2, s, dt, num);
            r.Ok? ==> r.value.timer >= 0.0 && r.value.elapsed == m.elapsed + dt &&
                      (m.timer - dt >= 0.0 ==> r.value.timer == m.timer - dt) &&
                      (m.timer - dt < 0.0 ==> r.value.timer == 0.0)
  {
    var m1 := UpdateRespawnTimers(Clock(m, dt), dt);
    assert m1.timer == Max(0.0, m.timer - dt) && m1.elapsed == m.elapsed + dt;
  }

  /** A player whose respawn timer is still running after this tick's countdown does not
      read its controller: any two inputs for it give the same tick. */
  lemma RespawningIgnoresInput(m: MatchView, pad1: Input.Pad, pad1': Input.Pad, pad2: Input.Pad,
                               s: StageView, dt: real, num: Numerics)
    requires WellFormed(s)
    requires 1 in m.respawn && m.respawn[1] - dt > 0.0
    ensures Tick(m, pad1, pad2, s, dt, num) == Tick(m, pad1', pad2, s, dt, num)
  {
    var m1 := UpdateRespawnTimers(Clock(m, dt), dt);
    RespawnTimersFacts(Clock(m, dt), dt, 1);
    assert 1 in m1.respawn;
    assert CharacterUpdates(m1, pad1, pad2, dt) == CharacterUpdates(m1, pad1', pad2, dt);
  }

  // ---------------------------------------------------------------- entering the match

  /** Both spawn positions: the stage's first two, or the fallback pair. */
  function SpawnPair(sp: seq<(real, real)>): (r: ((real, real), (real, real)))
    ensures |sp| >= 2 ==> r == (sp[0], sp[1])
    ensures |sp| < 2 ==> r == (FallbackSpawn1, FallbackSpawn2)
  {
    if |sp| >= 2 then (sp[0], sp[1]) else (FallbackSpawn1, FallbackSpawn2)
  }

  /** The reset `enter` applies to each new character. */
  function Reset(f: Fighter): Fighter
  {
    f.(damagePercent := 0.0, lives := StartingLives, body := f.body.(vx := 0.0, vy := 0.0, onGround := true))
  }

  /** `enter` on the stage built from the stage pick: the two picked characters at the
      spawn points, a fresh clock and no respawns. Both picks must be present. */
  function StartMatch(v: FlowView, s: StageView): (r: Result<MatchView>)
  {
    if v.selectedStage.None? || v.selectedCharacters.None? then Err(NoSelection)
    else
      var (a1, a2) := v.selectedCharacters.value;
      var (sp1, sp2) := SpawnPair(s.spawnPoints);
      Ok(MatchView(Reset(NewFighter(a1, sp1.0, sp1.1, 1)), Reset(NewFighter(a2, sp2.0, sp2.1, 2)),
                   MatchLength, 0.0, map[], sp1, sp2, v))
  }

  /** A match starts iff both picks were made; then each player has the character it
      picked, three lives, no damage, stands at rest at its respawn position, and player 1
      faces right; the clock is full and nobody is respawning. */
  lemma StartMatchFacts(v: FlowView, s: StageView)
    ensures var r := StartMatch(v, s);
            (r.Ok? <==> v.selectedStage.Some? && v.selectedCharacters.Some?) &&
            (r.Ok? ==>
               var m := r.value;
               m.p1.archetype == v.selectedCharacters.value.0 && m.p2.archetype == v.selectedCharacters.value.1 &&
               m.p1.playerId == 1 && m.p2.playerId == 2 &&
               m.p1.lives == 3 && m.p2.lives == 3 && m.p1.damagePercent == 0.0 && m.p2.damagePercent == 0.0 &&
               (m.p1.body.x, m.p1.body.y) == m.spawn1 && (m.p2.body.x, m.p2.body.y) == m.spawn2 &&
               m.p1.body.vx == 0.0 && m.p1.body.vy == 0.0 && m.p2.body.vx == 0.0 && m.p2.body.vy == 0.0 &&
               m.p1.body.facingRight && !m.p2.body.facingRight &&
               (|s.spawnPoints| >= 2 ==> m.spawn1 == s.spawnPoints[0] && m.spawn2 == s.spawnPoints[1]) &&
               m.timer == 180.0 && m.elapsed == 0.0 && m.respawn == map[] && m.flow == v)
  {
  }
}
