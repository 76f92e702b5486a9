/** The running shooter of frontend/src/SpaceInvaders.tsx as an object: the
    component's React state and the locals of the current run of its effect
    are fields, and the effect body, `render` and the event handlers are
    methods that update them in place with the same loops as the component.
    Each method is proved to leave the state the rules of `InvaderRules`
    prescribe for the state it started from. */
module InvaderSession {
  import opened Common
  import opened Geometry
  import opened InvaderRules

  /** `spawnEnemies`: the nested loops push one enemy per grid cell. */
  method SpawnLoop(es: seq<Enemy>, level: nat, roll: (nat, nat) -> Roll) returns (r: seq<Enemy>)
    ensures r == es + Grid(level, roll)
  {
    r := es;
    var rows := Rows(level);
    for i := 0 to rows
      invariant r == es + RowsUpTo(level, i, roll)
    {
      r := RowLoop(r, level, i, roll);
      RowsUpToStep(es, level, i, roll);
    }
  }

  lemma RowsUpToStep(es: seq<Enemy>, level: nat, i: nat, roll: (nat, nat) -> Roll)
    ensures es + RowsUpTo(level, i, roll) + Row(level, i, roll) == es + RowsUpTo(level, i + 1, roll)
  {
  }

  /** One pass of the inner loop of `spawnEnemies`: row `i`, left to right. */
  method RowLoop(es: seq<Enemy>, level: nat, i: nat, roll: (nat, nat) -> Roll) returns (r: seq<Enemy>)
    ensures r == es + Row(level, i, roll)
  {
    r := es;
    ghost var row := Row(level, i, roll);
    var cols := Cols(level);
    for j := 0 to cols
      invariant r == es + row[..j]
    {
      r := r + [Placed(level, i, j, roll)];
      assert row[..j + 1] == row[..j] + [Placed(level, i, j, roll)];
    }
    assert row[..cols] == row;
  }

  /** `projectiles.forEach`: each projectile rises 7 and is spliced above the top. */
  method RiseLoop(shots: seq<Shot>) returns (r: seq<Shot>)
    ensures r == Rise(shots, 0)
  {
    r := shots;
    var k := 0;
    while k < |r|
      invariant Rise(r, k) == Rise(shots, 0)
      decreases |r| - k
    {
      var s := Lifted(r[k]);
      if s.y < 0.0 {
        r := RemoveAt(r, k);
      } else {
        r := r[k := s];
      }
      k := k + 1;
    }
  }

  /** `enemies.forEach`: each enemy moves, then the inner `projectiles.forEach`
      tests it against every projectile. */
  method SweepLoop(start: Arena, m: Motion) returns (r: Arena)
    ensures r == Sweep(start, m, 0)
  {
    var es, ps, sc := start.enemies, start.shots, start.score;
    var sp: nat := start.sparks;
    var k := 0;
    while k < |es|
      invariant Sweep(Arena(es, ps, sc, sp), m, k) == Sweep(start, m, 0)
      decreases |es| - k
    {
      ghost var visited := Visit(Arena(es, ps, sc, sp), m, k);
      var e := MoveEnemy(es[k], m, k);
      es := es[k := e];
      ghost var before := Arena(es, ps, sc, sp);
      var j := 0;
      while j < |ps|
        invariant Strike(e, k, Arena(es, ps, sc, sp), j) == Strike(e, k, before, 0)
        decreases |ps| - j
      {
        if Hits(ps[j], e) {
          sp := sp + Burst;
          es := RemoveAt(es, k);
          ps := RemoveAt(ps, j);
          sc := sc + EnemyPoints;
        }
        j := j + 1;
      }
      assert Arena(es, ps, sc, sp) == visited;
      k := k + 1;
    }
    r := Arena(es, ps, sc, sp);
  }

  /** `bossProjectiles.forEach`: each projectile travels, and is spliced when
      it leaves the screen or reaches the player. */
  method BarrageLoop(shots: seq<BossShot>, px: real, sparks: nat) returns (r: Salvo)
    ensures r == Barrage(shots, 0, px, false, sparks)
  {
    var bs, hit := shots, false;
    var sp: nat := sparks;
    var k := 0;
    while k < |bs|
      invariant Barrage(bs, k, px, hit, sp) == Barrage(shots, 0, px, false, sparks)
      decreases |bs| - k
    {
      var s := Travel(bs[k]);
      if OffScreen(s) {
        bs := RemoveAt(bs, k);
      } else if StrikesPlayer(s, px) {
        sp := sp + Burst;
        bs := RemoveAt(bs, k);
        hit := true;
      } else {
        bs := bs[k := s];
      }
      k := k + 1;
    }
    r := Salvo(bs, hit, sp);
  }

  /** `projectiles.forEach` against the boss; the pass stops where the
      destroyed boss makes it throw. */
  method PummelLoop(shots: seq<Shot>, b: Boss, sparks: nat) returns (r: Duel)
    ensures r == Pummel(shots, b, 0, sparks)
  {
    var ps, cur, alive := shots, b, true;
    var sp: nat := sparks;
    var j := 0;
    while alive && j < |ps|
      invariant alive ==> Pummel(ps, cur, j, sp) == Pummel(shots, b, 0, sparks)
      invariant !alive ==> Duel(ps, None, sp) == Pummel(shots, b, 0, sparks)
      decreases |ps| - j
    {
      if Within(ps[j].x, ps[j].y, BossBox(cur)) {
        sp := sp + Burst;
        ps := RemoveAt(ps, j);
        cur := cur.(health := cur.health - BossDamage);
        if cur.health <= 0 {
          alive := false;
        }
      }
      j := j + 1;
    }
    r := Duel(ps, if alive then Some(cur) else None, sp);
  }

  class Session {
    // React state
    var state: GameState
    var score: int
    var level: nat
    var levelUp: bool
    var bossLevel: bool
    var progress: Option<int>
    // the locals of the current run of the effect
    var runLevel: nat
    var live: bool
    var playerX: real
    var touchX: real
    var shots: seq<Shot>
    var enemies: seq<Enemy>
    var boss: Option<Boss>
    var bossShots: seq<BossShot>
    var sparks: nat

    function Snapshot(): World
      reads this
    {
      World(state, score, level, levelUp, bossLevel, progress, runLevel, live, playerX, touchX,
            shots, enemies, boss, bossShots, sparks)
    }

    /** The component mounts: score 0, level 1, playing, and the effect runs. */
    constructor (roll: (nat, nat) -> Roll)
      ensures Snapshot() == Start(roll)
      ensures Sound(Snapshot())
    {
      state, score, level, levelUp, bossLevel, progress := Playing, 0, 1, false, false, Some(0);
      runLevel, live, playerX, touchX := 1, true, 0.0, 0.0;
      shots, enemies, boss, bossShots, sparks := [], [], None, [], 0;
      new;
      ghost var w := Snapshot();
      Mount(roll);
      MountIsSound(w, roll);
    }

    /** The effect body: fresh locals for the current level, then a wave. */
    method Mount(roll: (nat, nat) -> Roll)
      modifies this
      ensures Snapshot() == InvaderRules.Mount(old(Snapshot()), roll)
    {
      Capture();
      PlacePlayer();
      EmptyLists();
      SpawnEnemies(roll);
    }

    /** The closure captures `level`, and its frame loop starts. */
    method Capture()
      modifies this
      ensures Snapshot() == old(Snapshot()).(runLevel := old(level), live := true)
    {
      runLevel, live := level, true;
    }

    /** `let player = ...` with its left edge at half the canvas width, and
        `let touchStartX = 0`. */
    method PlacePlayer()
      modifies this
      ensures Snapshot() == old(Snapshot()).(playerX := Width / 2.0, touchX := 0.0)
    {
      playerX, touchX := Width / 2.0, 0.0;
    }

    /** The empty projectile, enemy, boss projectile and particle lists, and
        no boss. */
    method EmptyLists()
      modifies this
      ensures Snapshot() == old(Snapshot()).(shots := [], enemies := [], boss := None, bossShots := [], sparks := 0)
    {
      ClearPlayerSide();
      ClearBossSide();
    }

    method ClearPlayerSide()
      modifies this
      ensures Snapshot() == old(Snapshot()).(shots := [], enemies := [])
    {
      shots, enemies := [], [];
    }

    method ClearBossSide()
      modifies this
      ensures Snapshot() == old(Snapshot()).(boss := None, bossShots := [], sparks := 0)
    {
      boss, bossShots, sparks := None, [], 0;
    }

    /** `spawnEnemies`. */
    method SpawnEnemies(roll: (nat, nat) -> Roll)
      modifies this
      ensures Snapshot() == Spawned(old(Snapshot()), roll)
    {
      enemies := SpawnLoop(enemies, runLevel, roll);
    }

    /** One call of `render`. */
    method Frame(f: FrameInput)
      modifies this
      ensures Snapshot() == InvaderRules.Frame(old(Snapshot()), f)
      ensures old(Sound(Snapshot())) ==> Sound(Snapshot())
    {
      ghost var w := Snapshot();
      if Sound(w) {
        FrameKeepsSound(w, f);
      }
      if state != Playing || !live {
        return;
      }
      var foe := boss;
      MoveShots();
      MoveEnemies(f.motion);
      if foe.Some? {
        BossTurn(foe.value, f);
        if !live {
          return;
        }
      }
      Conclude(f.roll);
    }

    /** The player's `projectiles.forEach`. */
    method MoveShots()
      modifies this
      ensures Snapshot() == Climbed(old(Snapshot()))
    {
      shots := RiseLoop(shots);
    }

    /** `enemies.forEach`. */
    method MoveEnemies(m: Motion)
      modifies this
      ensures Snapshot() == Swept(old(Snapshot()), m)
    {
      ghost var w := Snapshot();
      var a := SweepLoop(Arena(enemies, shots, score, sparks), m);
      Absorb(a);
      assert Swept(w, m) == w.(enemies := a.enemies, shots := a.shots, score := a.score, sparks := a.sparks);
    }

    /** The enemy pass's results written back to the fields. */
    method Absorb(a: Arena)
      modifies this
      ensures Snapshot() == old(Snapshot()).(enemies := a.enemies, shots := a.shots, score := a.score, sparks := a.sparks)
    {
      enemies, shots, score, sparks := a.enemies, a.shots, a.score, a.sparks;
    }

    /** The boss block of `render` for the boss `b`. */
    method BossTurn(b: Boss, f: FrameInput)
      modifies this
      ensures Snapshot() == Confront(old(Snapshot()), b, f)
    {
      BossAim(b, f);
      BossShelling();
      BossHit();
      if boss.None? {
        BossDown();
      }
    }

    /** The boss drifts and, when the cadence allows, fires three projectiles. */
    method BossAim(b: Boss, f: FrameInput)
      modifies this
      ensures Snapshot() == Aimed(old(Snapshot()), b, f)
    {
      var b1 := b.(x := b.x + f.drift);
      boss := Some(b1);
      if f.fire {
        bossShots := bossShots + Fire(b1, f.volley);
      }
    }

    /** `bossProjectiles.forEach`. */
    method BossShelling()
      modifies this
      ensures Snapshot() == Shelled(old(Snapshot()))
    {
      var salvo := BarrageLoop(bossShots, playerX, sparks);
      if salvo.playerHit {
        state := Over;
      }
      bossShots, sparks := salvo.shots, salvo.sparks;
    }

    /** The player's `projectiles.forEach` against the boss. */
    method BossHit()
      modifies this
      ensures Snapshot() == Pounded(old(Snapshot()))
    {
      if boss.Some? {
        var duel := PummelLoop(shots, boss.value, sparks);
        shots, boss, sparks := duel.shots, duel.boss, duel.sparks;
      }
    }

    /** The boss is destroyed: the bonus, `setIsBossLevel(false)`, and the
        loop dies. */
    method BossDown()
      modifies this
      ensures Snapshot() == Defeated(old(Snapshot()))
    {
      score, bossLevel, live := score + BossBonus, false, false;
    }

    /** The end of `render`: progress, then the level completion check. */
    method Conclude(roll: (nat, nat) -> Roll)
      modifies this
      ensures Snapshot() == Finish(old(Snapshot()), roll)
    {
      progress := Progress(runLevel, enemies, boss);
      if |enemies| == 0 && boss.None? {
        NextLevel();
        if IsBossLevel(runLevel) {
          CreateBoss();
        } else {
          SpawnEnemies(roll);
        }
      }
    }

    /** `setLevel(prev => prev + 1)` and `setIsLevelUp(true)`. */
    method NextLevel()
      modifies this
      ensures Snapshot() == Promoted(old(Snapshot()))
    {
      level, levelUp := level + 1, true;
    }

    /** `createBoss`. */
    method CreateBoss()
      modifies this
      ensures Snapshot() == Summoned(old(Snapshot()))
    {
      bossLevel, boss := true, Some(NewBoss);
    }

    /** `handleKeyDown`. */
    method KeyDown(key: string)
      modifies this
      ensures Snapshot() == KeyStep(old(Snapshot()), key)
    {
      if state != Playing {
        return;
      }
      if key == "ArrowLeft" {
        playerX := playerX - PlayerSpeed;
        if playerX < 0.0 {
          playerX := 0.0;
        }
      } else if key == "ArrowRight" {
        playerX := playerX + PlayerSpeed;
        if playerX + PlayerSize > Width {
          playerX := Width - PlayerSize;
        }
      } else if key == " " {
        shots := shots + [Shot(playerX + PlayerSize / 2.0, PlayerY)];
      } else if key == "p" {
        state := Paused;
      }
    }

    /** `handleTouchStart`. */
    method TouchStart(x: real)
      modifies this
      ensures Snapshot() == TouchStartStep(old(Snapshot()), x)
    {
      touchX := x;
    }

    /** `handleTouchMove`. */
    method TouchMove(x: real)
      modifies this
      ensures Snapshot() == TouchMoveStep(old(Snapshot()), x)
    {
      var delta := x - touchX;
      if delta > 10.0 || delta < -10.0 {
        playerX := playerX + if delta > 0.0 then PlayerSpeed else -PlayerSpeed;
        var capped := if Width - PlayerSize < playerX then Width - PlayerSize else playerX;
        playerX := if 0.0 < capped then capped else 0.0;
        touchX := x;
      }
    }

    /** `handleTouchEnd`. */
    method TouchEnd()
      modifies this
      ensures Snapshot() == TouchEndStep(old(Snapshot()))
    {
      shots := shots + [Shot(playerX + PlayerSize / 2.0, PlayerY)];
    }

    /** The overlay's resume button. */
    method Resume()
      modifies this
      ensures Snapshot() == ResumeStep(old(Snapshot()))
    {
      state := Playing;
    }

    /** The timer set at a level up. */
    method EndLevelUp()
      modifies this
      ensures Snapshot() == LevelUpEnds(old(Snapshot()))
    {
      levelUp := false;
    }
  }
}
