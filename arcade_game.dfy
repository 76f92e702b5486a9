/** The older canvas shooter of frontend/src/Game.tsx as an object: the
    closure of `initializeGame` (`player`, `enemies`, `projectiles`, `keys`,
    `score`, `level`, `levelTransition`) becomes fields, and `update`,
    `levelUp`, its deferred completion and the key handlers become methods
    that update them in place with the same loops as the closure. Each
    method is proved to leave the state `ArcadeRules` prescribes. */
module ArcadeGame {
  import opened Common
  import opened Geometry
  import opened ArcadeRules

  /** `enemies.forEach`: every enemy is moved in place. */
  method MarchLoop(es: seq<Alien>, px: real, c: Canvas, m: Motion) returns (r: seq<Alien>)
    ensures r == March(es, px, c, m)
  {
    r := es;
    for i := 0 to |es|
      invariant |r| == |es|
      invariant forall j :: 0 <= j < i ==> r[j] == Steered(es[j], j, px, c, m)
      invariant forall j :: i <= j < |es| ==> r[j] == es[j]
    {
      r := r[i := Steered(r[i], i, px, c, m)];
    }
    assert forall j :: 0 <= j < |es| ==> r[j] == March(es, px, c, m)[j];
  }

  /** `projectiles.forEach`: each projectile rises 5 and is spliced once it is
      wholly above the canvas. */
  method ClimbLoop(ps: seq<Bolt>) returns (r: seq<Bolt>)
    ensures r == Climb(ps, 0)
  {
    r := ps;
    var k := 0;
    while k < |r|
      invariant Climb(r, k) == Climb(ps, 0)
      decreases |r| - k
    {
      var b := Up(r[k]);
      if b.y + BoltHeight < 0.0 {
        r := RemoveAt(r, k);
      } else {
        r := r[k := b];
      }
      k := k + 1;
    }
  }

  /** `checkCollisions`: for each projectile, the inner `enemies.forEach`
      tests the projectile read at the start of the outer step. */
  method CollideLoop(start: Melee) returns (r: Melee)
    ensures r == Collide(start, 0)
  {
    var ps, es := start.bolts, start.aliens;
    var sc: nat := start.score;
    var k := 0;
    while k < |ps|
      invariant Collide(Melee(ps, es, sc), k) == Collide(start, 0)
      decreases |ps| - k
    {
      var p := ps[k];
      ghost var before := Melee(ps, es, sc);
      var e := 0;
      while e < |es|
        invariant Clash(Melee(ps, es, sc), p, k, e) == Clash(before, p, k, 0)
        decreases |es| - e
      {
        if Overlap(Hull(p), Body(es[e])) {
          ps := RemoveAt(ps, k);
          es := RemoveAt(es, e);
          sc := sc + HitPoints;
        }
        e := e + 1;
      }
      k := k + 1;
    }
    r := Melee(ps, es, sc);
  }

  class Game {
    /** The canvas size; the resize listener is not part of this model. */
    const canvas: Canvas
    var playerX: real
    var enemies: seq<Alien>
    var projectiles: seq<Bolt>
    var held: set<string>
    var score: nat
    var level: nat
    var transition: bool

    function Snapshot(): Stage
      reads this
    {
      Stage(playerX, enemies, projectiles, held, score, level, transition)
    }

    /** `initializeGame` up to its first `update()`: the player centred, score
        0, level 1, no transition, and `spawnEnemies()`. */
    constructor (c: Canvas, draw: nat -> Draw)
      ensures canvas == c && Snapshot() == Start(c, draw)
      ensures c.width > 40 ==> Sound(Snapshot(), canvas)
    {
      canvas := c;
      playerX, enemies, projectiles, held := Centre(c), [], [], {};
      score, level, transition := 0, 1, false;
      new;
      SpawnEnemies(draw);
      if c.width > 40 {
        StartIsSound(c, draw);
      }
    }

    /** `spawnEnemies`: the enemy list is replaced by a wave for `level`. */
    method SpawnEnemies(draw: nat -> Draw)
      modifies this
      ensures Snapshot() == old(Snapshot()).(enemies := Wave(canvas, level, draw))
    {
      enemies := Wave(canvas, level, draw);
    }

    /** One call of `update`. */
    method Update(m: Motion)
      modifies this
      ensures Snapshot() == Tick(old(Snapshot()), canvas, m)
      ensures old(Sound(Snapshot(), canvas)) ==> Sound(Snapshot(), canvas)
    {
      ghost var s := Snapshot();
      if Sound(s, canvas) {
        TickKeepsSound(s, canvas, m);
      }
      if !transition {
        MoveEnemies(m);
        MoveProjectiles();
        CheckCollisions();
      }
      LevelUp();
      MovePlayer();
    }

    method MoveEnemies(m: Motion)
      modifies this
      ensures Snapshot() == Marched(old(Snapshot()), canvas, m)
    {
      enemies := MarchLoop(enemies, playerX, canvas, m);
    }

    method MoveProjectiles()
      modifies this
      ensures Snapshot() == Climbed(old(Snapshot()))
    {
      projectiles := ClimbLoop(projectiles);
    }

    method CheckCollisions()
      modifies this
      ensures Snapshot() == Collided(old(Snapshot()))
    {
      var f := CollideLoop(Melee(projectiles, enemies, score));
      projectiles, enemies, score := f.bolts, f.aliens, f.score;
    }

    /** `levelUp`; the `setTimeout` it schedules is `FinishTransition`. */
    method LevelUp()
      modifies this
      ensures Snapshot() == Promote(old(Snapshot()))
    {
      if |enemies| == 0 && !transition {
        transition := true;
        level := level + 1;
      }
    }

    /** The held-key block at the end of `update`. */
    method MovePlayer()
      modifies this
      ensures Snapshot() == Walk(old(Snapshot()), canvas)
    {
      if "ArrowLeft" in held && playerX > 0.0 {
        playerX := playerX - PlayerStep;
      }
      if "ArrowRight" in held && playerX + PlayerWidth < canvas.width as real {
        playerX := playerX + PlayerStep;
      }
    }

    /** The callback `levelUp` defers by 2000 ms. It only runs after `levelUp`
        set the flag, and only once per flag. */
    method FinishTransition(draw: nat -> Draw)
      requires transition
      modifies this
      ensures Snapshot() == Completed(old(Snapshot()), canvas, draw)
      ensures canvas.width > 40 ==> Sound(Snapshot(), canvas)
    {
      ghost var s := Snapshot();
      CompletedReady(s, canvas, draw);
      ResetPlayer();
      ClearTransition();
      SpawnEnemies(draw);
    }

    /** `resetPlayer()`. */
    method ResetPlayer()
      modifies this
      ensures Snapshot() == old(Snapshot()).(playerX := Centre(canvas))
    {
      playerX := Centre(canvas);
    }

    /** `levelTransition = false` and `projectiles.length = 0`. */
    method ClearTransition()
      modifies this
      ensures Snapshot() == old(Snapshot()).(transition := false, projectiles := [])
    {
      transition, projectiles := false, [];
    }

    /** `handleKeyDown`. */
    method KeyDown(key: string)
      modifies this
      ensures Snapshot() == Pressed(old(Snapshot()), canvas, key)
      ensures canvas.height >= 40 && old(Sound(Snapshot(), canvas)) ==> Sound(Snapshot(), canvas)
    {
      ghost var s := Snapshot();
      if key == " " {
        SpaceFires(s, canvas);
      }
      held := held + {key};
      if key == " " && !transition {
        projectiles := projectiles + [Bolt(playerX + PlayerWidth / 2.0 - BoltWidth, PlayerY(canvas))];
      }
    }

    /** `handleKeyUp`. */
    method KeyUp(key: string)
      modifies this
      ensures Snapshot() == Released(old(Snapshot()), key)
      ensures old(Sound(Snapshot(), canvas)) ==> Sound(Snapshot(), canvas)
    {
      held := held - {key};
    }
  }
}
