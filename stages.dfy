/** Arenas: platforms, spawn points, blast zones and each arena's per-tick gravity. A
    `Stage` object is built once by its constructor, which appends its platforms and spawn
    points in order; the physics reads it through `View()`. */
module Stages {
  import opened Common
  import opened Fighters
  import Characters

  datatype PlatformType = Solid | PassThrough | MovingPlatform | Breakable | Temporary

  /** A platform. Its velocity and health are kept as set; nothing moves or breaks one. */
  datatype Platform = Platform(x: real, y: real, width: int, height: int, kind: PlatformType,
                               vx: real, vy: real, isActive: bool, health: int)

  /** `Platform.__init__`. */
  function NewPlatform(x: real, y: real, width: int, height: int, kind: PlatformType): (p: Platform)
    ensures p.x == x && p.y == y && p.width == width && p.height == height && p.kind == kind
    ensures p.isActive && p.vx == 0.0 && p.vy == 0.0
    ensures p.health == 100 <==> kind == Breakable
    ensures kind != Breakable ==> p.health == -1
  {
    Platform(x, y, width, height, kind, 0.0, 0.0, true, if kind == Breakable then 100 else -1)
  }

  /** Which class built the stage; the Plains wind is drawn at random when the stage is
      built, so it is a parameter here. */
  datatype StageKind = BaseStage | BattlefieldStage | PlainsStage(windDirection: int, windStrength: real)

  /** `platform_heights` as each arena records it. */
  datatype Heights =
    | NoHeights
    | BattlefieldHeights(main: real, side: real, top: real)
    | PlainsHeights(main: real, tower: real, sideTower: real, floating: real)

  datatype BlastZones = BlastZones(left: real, right: real, top: real, bottom: real)

  /** The blast zone a fighter crossed. */
  datatype KoDirection = KoLeft | KoRight | KoTop | KoBottom

  datatype StageView = StageView(kind: StageKind, name: string, width: int, height: int,
                                 blast: BlastZones, platforms: seq<Platform>,
                                 mainPlatform: Option<Platform>, spawnPoints: seq<(real, real)>,
                                 heights: Heights)

  /** What each arena's gravity reads is there. */
  predicate WellFormed(s: StageView)
  {
    (s.kind.BattlefieldStage? ==> s.heights.BattlefieldHeights?) &&
    (s.kind.PlainsStage? ==> s.mainPlatform.Some? && (s.kind.windDirection == -1 || s.kind.windDirection == 1))
  }

  /** The blast zones `Stage.__init__` sets: 200 beyond every edge. */
  function DefaultBlastZones(width: int, height: int): (z: BlastZones)
    ensures z.left == -200.0 && z.top == -200.0
    ensures z.right - width as real == 200.0 && z.bottom - height as real == 200.0
  {
    BlastZones(-200.0, width as real + 200.0, -200.0, height as real + 200.0)
  }

  /** The counts `get_stage_info` reports. */
  datatype StageInfo = StageInfo(name: string, width: int, height: int, platformCount: int,
                                 hasHazards: bool, spawnPointCount: int)

  function Info(s: StageView): (i: StageInfo)
    ensures i.platformCount == |s.platforms| && i.spawnPointCount == |s.spawnPoints|
    ensures i.name == s.name && i.width == s.width && i.height == s.height && !i.hasHazards
  {
    StageInfo(s.name, s.width, s.height, |s.platforms|, false, |s.spawnPoints|)
  }

  // ---------------------------------------------------------------- Battlefield

  const BattlefieldWidth := 1200
  const BattlefieldHeight := 800

  /** Main, left, right, top, in the order `setup_platforms` appends them. */
  function BattlefieldPlatforms(): (ps: seq<Platform>)
    ensures |ps| == 4 && ps[0].kind == Solid
    ensures forall i | 1 <= i < 4 :: ps[i].kind == PassThrough && ps[i].y < ps[0].y
    // the main platform is centred
    ensures ps[0].x + ps[0].width as real / 2.0 == BattlefieldWidth as real / 2.0
    // the side platforms sit level, 50 in from the main platform's edges, mirrored about its centre
    ensures ps[1].y == ps[2].y && ps[1].width == ps[2].width
    ensures ps[1].x - ps[0].x == 50.0 && (ps[0].x + ps[0].width as real) - (ps[2].x + ps[2].width as real) == 50.0
    // the top platform is the highest and centred over the main one
    ensures ps[3].y < ps[1].y && ps[3].x + ps[3].width as real / 2.0 == ps[0].x + ps[0].width as real / 2.0
  {
    [NewPlatform(200.0, 680.0, 800, 40, Solid),
     NewPlatform(250.0, 560.0, 180, 20, PassThrough),
     NewPlatform(770.0, 560.0, 180, 20, PassThrough),
     NewPlatform(520.0, 450.0, 160, 20, PassThrough)]
  }

  /** Player 1 then player 2, 250 either side of the main platform's centre, 50 above it. */
  function BattlefieldSpawns(main: Platform): (sp: seq<(real, real)>)
    requires main.width >= 0
    ensures |sp| == 2
    ensures sp[0].1 == sp[1].1 == main.y - 50.0
    ensures sp[0].0 + 250.0 == sp[1].0 - 250.0 == main.x + (main.width / 2) as real
  {
    var centre := main.x + (main.width / 2) as real;
    [(centre - 250.0, main.y - 50.0), (centre + 250.0, main.y - 50.0)]
  }

  function BattlefieldBlastZones(): (z: BlastZones)
    ensures z.left == -280.0 && z.top == -250.0
    ensures z.right == BattlefieldWidth as real + 280.0 && z.bottom == BattlefieldHeight as real + 350.0
  {
    BlastZones(-280.0, BattlefieldWidth as real + 280.0, -250.0, BattlefieldHeight as real + 350.0)
  }

  // ---------------------------------------------------------------- Plains

  const PlainsWidth := 1400
  const PlainsHeight := 700

  /** Ground, centre tower, left and right towers, left and right floats. */
  function PlainsPlatforms(): (ps: seq<Platform>)
    ensures |ps| == 6
    // the ground spans the whole width
    ensures ps[0].x == 0.0 && ps[0].width == PlainsWidth && ps[0].y == 600.0
    // the towers stand on the ground; the centre one is centred, the side ones mirror each other
    ensures forall i | 1 <= i < 4 :: ps[i].kind == Solid && ps[i].y + ps[i].height as real == ps[0].y
    ensures ps[1].x + ps[1].width as real / 2.0 == PlainsWidth as real / 2.0
    ensures ps[2].x == PlainsWidth as real - (ps[3].x + ps[3].width as real)
    // the floats are level with the centre tower, pass-through, centred in each gap
    ensures ps[4].kind == PassThrough && ps[5].kind == PassThrough && ps[4].y == ps[5].y == ps[1].y
    ensures ps[4].x - (ps[2].x + ps[2].width as real) == ps[1].x - (ps[4].x + ps[4].width as real)
    ensures ps[5].x - (ps[1].x + ps[1].width as real) == ps[3].x - (ps[5].x + ps[5].width as real)
  {
    [NewPlatform(0.0, 600.0, 1400, 100, Solid),
     NewPlatform(600.0, 420.0, 200, 180, Solid),
     NewPlatform(150.0, 480.0, 150, 120, Solid),
     NewPlatform(1100.0, 480.0, 150, 120, Solid),
     NewPlatform(390.0, 420.0, 120, 20, PassThrough),
     NewPlatform(890.0, 420.0, 120, 20, PassThrough)]
  }

  /** Player 1 then player 2, 320 either side of the ground's centre, 60 above it. */
  function PlainsSpawns(main: Platform): (sp: seq<(real, real)>)
    requires main.width >= 0
    ensures |sp| == 2
    ensures sp[0].1 == sp[1].1 == main.y - 60.0
    ensures sp[0].0 + 320.0 == sp[1].0 - 320.0 == main.x + (main.width / 2) as real
  {
    var centre := main.x + (main.width / 2) as real;
    [(centre - 320.0, main.y - 60.0), (centre + 320.0, main.y - 60.0)]
  }

  function PlainsBlastZones(): (z: BlastZones)
    ensures z.left == -200.0 && z.top == -200.0
    ensures z.right == PlainsWidth as real + 200.0 && z.bottom == PlainsHeight as real + 200.0
  {
    BlastZones(-200.0, PlainsWidth as real + 200.0, -200.0, PlainsHeight as real + 200.0)
  }

  // ---------------------------------------------------------------- gravity

  const BaseGravity := 0.8

  /** Battlefield's `apply_stage_gravity`: 0.8, 10% weaker less than 50 below the top
      platform; airborne the fall speed grows, air friction takes 2% and the fall speed is
      capped at 18; on the ground nothing changes (the magnetism branch reads an attribute
      no fighter has). */
  function BattlefieldGravity(topY: real, b: Body): (r: Body)
    ensures r == b.(vx := r.vx, vy := r.vy)
    ensures b.onGround ==> r == b
    ensures !b.onGround ==> r.vx == b.vx * 0.98 && r.vy <= 18.0 &&
                            r.vy == Min(b.vy + (if b.y < topY + 50.0 then 0.72 else 0.8), 18.0)
  {
    var g := if b.y < topY + 50.0 then BaseGravity * 1.0 * 0.9 else BaseGravity * 1.0;
    if b.onGround then b
    else
      var vy := b.vy + g;
      b.(vy := if vy > 18.0 then 18.0 else vy, vx := b.vx * (1.0 - 0.02 * 1.0))
  }

  /** Plains' `apply_stage_gravity`: 0.92, 5% stronger within 100 of the ground's ends;
      airborne the fall speed grows, air friction takes 2.6%, the wind pushes by
      direction x strength x 0.02 and the fall speed is capped at 16; on the ground 8%
      friction (the friction-zone list is empty, and magnetism never runs). */
  function PlainsGravity(main: Platform, windDirection: int, windStrength: real, b: Body): (r: Body)
    ensures r == b.(vx := r.vx, vy := r.vy)
    ensures b.onGround ==> r.vy == b.vy && r.vx == b.vx * 0.92
    ensures !b.onGround ==> r.vy <= 16.0 && r.vx == b.vx * 0.974 + windDirection as real * windStrength * 0.02
    ensures !b.onGround ==>
      var edge := b.x < main.x + 100.0 || b.x > main.x + main.width as real - 100.0;
      r.vy == Min(b.vy + (if edge then 0.966 else 0.92), 16.0)
  {
    var modifier := if b.x < main.x + 100.0 || b.x > main.x + main.width as real - 100.0 then 1.05 else 1.0;
    var g := BaseGravity * 1.15 * modifier;
    if !b.onGround then
      var vy := b.vy + g;
      var vx := b.vx * (1.0 - 0.02 * 1.3) + windDirection as real * windStrength * 0.02;
      b.(vy := if vy > 16.0 then 16.0 else vy, vx := vx)
    else
      b.(vx := b.vx * (1.0 - 0.08))
  }

  /** `apply_stage_gravity` of the two arenas that define one. */
  function StageGravity(s: StageView, b: Body): (r: Body)
    requires WellFormed(s) && !s.kind.BaseStage?
  {
    if s.kind.BattlefieldStage? then BattlefieldGravity(s.heights.top, b)
    else PlainsGravity(s.mainPlatform.value, s.kind.windDirection, s.kind.windStrength, b)
  }

  /** Both arenas keep an airborne fighter's fall speed under their cap, whatever it was,
      and leave position and flags alone. */
  lemma StageGravityCapsFall(s: StageView, b: Body)
    requires WellFormed(s) && !s.kind.BaseStage? && !b.onGround
    ensures StageGravity(s, b).vy <= 18.0
    ensures b.vy <= 15.0 ==> StageGravity(s, b).vy > b.vy
    ensures StageGravity(s, b) == b.(vx := StageGravity(s, b).vx, vy := StageGravity(s, b).vy)
  {
  }

  // ---------------------------------------------------------------- the stage object

  class Stage {
    const kind: StageKind
    const name: string
    const width: int
    const height: int
    var blast: BlastZones
    var platforms: seq<Platform>
    var mainPlatform: Option<Platform>
    var spawnPoints: seq<(real, real)>
    var heights: Heights

    function View(): StageView
      reads this
    {
      StageView(kind, name, width, height, blast, platforms, mainPlatform, spawnPoints, heights)
    }

    /** `Stage.__init__`: no platforms, no spawn points, blast zones 200 beyond the edges. */
    constructor (name: string, width: int, height: int)
      ensures View() == StageView(BaseStage, name, width, height, DefaultBlastZones(width, height),
                                  [], None, [], NoHeights)
    {
      this.kind := BaseStage;
      this.name := name;
      this.width := width;
      this.height := height;
      blast := BlastZones(-200.0, width as real + 200.0, -200.0, height as real + 200.0);
      platforms := [];
      mainPlatform := None;
      spawnPoints := [];
      heights := NoHeights;
    }

    /** `Battlefield()`: the base constructor, then the platforms, spawn points and blast
        zones set up in that order. */
    constructor Battlefield()
      ensures View() == StageView(BattlefieldStage, "Battlefield", BattlefieldWidth, BattlefieldHeight,
                                  BattlefieldBlastZones(), BattlefieldPlatforms(),
                                  Some(BattlefieldPlatforms()[0]),
                                  BattlefieldSpawns(BattlefieldPlatforms()[0]),
                                  BattlefieldHeights(680.0, 560.0, 450.0))
      ensures WellFormed(View())
    {
      kind := BattlefieldStage;
      name := "Battlefield";
      width := BattlefieldWidth;
      height := BattlefieldHeight;
      blast := DefaultBlastZones(BattlefieldWidth, BattlefieldHeight);
      platforms := [];
      mainPlatform := None;
      spawnPoints := [];
      heights := NoHeights;
      new;
      var mainX := ((width - 800) / 2) as real;
      var mainY := (height - 120) as real;
      var main := NewPlatform(mainX, mainY, 800, 40, Solid);
      mainPlatform := Some(main);
      platforms := platforms + [main];
      var sideY := mainY - 120.0;
      platforms := platforms + [NewPlatform(mainX + 50.0, sideY, 180, 20, PassThrough)];
      platforms := platforms + [NewPlatform(mainX + 800.0 - 180.0 - 50.0, sideY, 180, 20, PassThrough)];
      var topY := sideY - 110.0;
      platforms := platforms + [NewPlatform(((width - 160) / 2) as real, topY, 160, 20, PassThrough)];
      heights := BattlefieldHeights(mainY, sideY, topY);
      var centre := main.x + (main.width / 2) as real;
      AddSpawnPoint(centre - 250.0, main.y - 50.0);
      AddSpawnPoint(centre + 250.0, main.y - 50.0);
      blast := BlastZones(-280.0, width as real + 280.0, -250.0, height as real + 350.0);
    }

    /** `Plains()`, with the wind the constructor draws at random given as arguments. */
    constructor Plains(windDirection: int, windStrength: real)
      requires windDirection == -1 || windDirection == 1
      ensures View() == StageView(PlainsStage(windDirection, windStrength), "Snowdin", PlainsWidth, PlainsHeight,
                                  PlainsBlastZones(), PlainsPlatforms(),
                                  Some(PlainsPlatforms()[0]),
                                  PlainsSpawns(PlainsPlatforms()[0]),
                                  PlainsHeights(600.0, 420.0, 480.0, 420.0))
      ensures WellFormed(View())
    {
      kind := PlainsStage(windDirection, windStrength);
      name := "Snowdin";
      width := PlainsWidth;
      height := PlainsHeight;
      blast := DefaultBlastZones(PlainsWidth, PlainsHeight);
      platforms := [];
      mainPlatform := None;
      spawnPoints := [];
      heights := NoHeights;
      new;
      var mainY := (height - 100) as real;
      var main := NewPlatform(0.0, mainY, width, 100, Solid);
      mainPlatform := Some(main);
      platforms := platforms + [main];
      var towerX := (width - 200) as real / 2.0;
      var towerY := mainY - 180.0;
      platforms := platforms + [NewPlatform(towerX, towerY, 200, 180, Solid)];
      var sideY := mainY - 120.0;
      var rightX := (width - 150 - 150) as real;
      platforms := platforms + [NewPlatform(150.0, sideY, 150, 120, Solid)];
      platforms := platforms + [NewPlatform(rightX, sideY, 150, 120, Solid)];
      var leftGap := 150.0 + 150.0;
      platforms := platforms + [NewPlatform(leftGap + (towerX - leftGap - 120.0) / 2.0, towerY, 120, 20, PassThrough)];
      var rightGap := towerX + 200.0;
      platforms := platforms + [NewPlatform(rightGap + (rightX - rightGap - 120.0) / 2.0, towerY, 120, 20, PassThrough)];
      heights := PlainsHeights(mainY, towerY, sideY, towerY);
      var centre := main.x + (main.width / 2) as real;
      AddSpawnPoint(centre - 320.0, main.y - 60.0);
      AddSpawnPoint(centre + 320.0, main.y - 60.0);
      blast := BlastZones(-200.0, width as real + 200.0, -200.0, height as real + 200.0);
    }

    /** `add_platform` is an empty stub: the platform list does not change. */
    method AddPlatform(p: Platform)
      ensures View() == old(View())
    {
    }

    /** `add_spawn_point` appends and changes nothing else. */
    method AddSpawnPoint(x: real, y: real)
      modifies this
      ensures View() == old(View()).(spawnPoints := old(spawnPoints) + [(x, y)])
    {
      spawnPoints := spawnPoints + [(x, y)];
    }

    /** `check_blast_zones` is a stub that answers `None` for every position. */
    method CheckBlastZones(x: real, y: real) returns (r: Option<KoDirection>)
      ensures r.None?
    {
      r := None;
    }

    /** `apply_stage_gravity` on the fighter's velocity, for the two arenas that have it. */
    method ApplyStageGravity(c: Characters.Character)
      requires WellFormed(View()) && !kind.BaseStage?
      modifies c`body
      ensures c.body == StageGravity(View(), old(c.body))
    {
      var b := c.body;
      if kind.BattlefieldStage? {
        var g := if b.y < heights.top + 50.0 then BaseGravity * 1.0 * 0.9 else BaseGravity * 1.0;
        if !b.onGround {
          b := b.(vy := b.vy + g);
          b := b.(vx := b.vx * (1.0 - 0.02 * 1.0));
          if b.vy > 18.0 {
            b := b.(vy := 18.0);
          }
        }
      } else {
        var main := mainPlatform.value;
        var modifier := 1.0;
        if b.x < main.x + 100.0 || b.x > main.x + main.width as real - 100.0 {
          modifier := 1.05;
        }
        var g := BaseGravity * 1.15 * modifier;
        if !b.onGround {
          var wind := kind.windDirection as real * kind.windStrength * 0.02;
          b := b.(vy := b.vy + g);
          b := b.(vx := b.vx * (1.0 - 0.02 * 1.3));
          b := b.(vx := b.vx + wind);
          if b.vy > 16.0 {
            b := b.(vy := 16.0);
          }
        } else {
          b := b.(vx := b.vx * (1.0 - 0.08));
        }
      }
      c.body := b;
    }
  }
}
