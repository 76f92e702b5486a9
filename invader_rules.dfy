/** The discrete rules of the canvas shooter in frontend/src/SpaceInvaders.tsx:
    the wave grid, enemy motion with its boundary checks, the strict
    point-in-rectangle hit tests, scoring, boss damage, level progress and
    level completion, and the keyboard and touch handlers.

    Everything here is a function of one snapshot of the game (`World`); the
    class `InvaderSession.Session` holds the same state in fields and runs
    the loops. Trigonometry and randomness are inputs: `Motion` carries the
    host's `Math.sin`, `Math.cos` and the per-enemy dive draw, `Roll` the
    draws of a spawned enemy. Coordinates are exact reals. */
module InvaderRules {
  import opened Common
  import opened Geometry

  // The canvas is declared 350 by 600 in the component's markup.
  const Width: real := 350.0
  const Height: real := 600.0

  const EnemySize: real := 40.0
  const PlayerSize: real := 50.0
  const PlayerY: real := Height - 60.0
  const PlayerSpeed: real := 5.0
  const ShotRise: real := 7.0
  const BossSize: real := 80.0
  const BossStartHealth: int := 100
  const BossDamage: int := 10
  const EnemyPoints: int := 100
  const BossBonus: int := 1000
  /** Particles per `createParticles` call. */
  const Burst: nat := 8

  datatype GameState = Playing | Paused | Over
  datatype Pattern = Sine | Circle | Dive
  datatype Enemy = Enemy(x: real, y: real, pattern: Pattern, phase: real)
  /** A player projectile (radius 4; only its centre counts for a hit). */
  datatype Shot = Shot(x: real, y: real)
  datatype BossShot = BossShot(x: real, y: real, vx: real, vy: real)
  /** The boss; `lastShot` is not kept, the fire cadence is an input. */
  datatype Boss = Boss(x: real, y: real, health: int)

  /** The two random draws of one spawned enemy: its pattern and its phase. */
  datatype Roll = Roll(pattern: Pattern, phase: real)
  /** What enemy motion reads from the host: `Math.sin`, `Math.cos`, and
      whether the dive draw `Math.random() < 0.01` succeeds for the enemy
      visited at a given index. */
  datatype Motion = Motion(sin: real -> real, cos: real -> real, dive: nat -> bool)
  datatype Aim = Aim(vx: real, vy: real)
  /** The velocities of the three aimed boss projectiles (i = -1, 0, 1). */
  datatype Volley = Volley(low: Aim, mid: Aim, high: Aim)
  /** The inputs of one frame: motion oracles, the boss drift
      `Math.cos(Date.now() / 1000) * 3`, whether the 1000 ms fire cadence has
      elapsed, the volley, and the draws for a wave spawned this frame. */
  datatype FrameInput = FrameInput(motion: Motion, drift: real, fire: bool, volley: Volley, roll: (nat, nat) -> Roll)

  predicate InField(e: Enemy)
  {
    0.0 <= e.x <= Width - EnemySize && 0.0 <= e.y <= Height - EnemySize
  }

  // ---------------------------------------------------------------------------
  // `spawnEnemies`: the level-derived grid

  function Rows(level: nat): (r: nat)
    ensures 2 <= r <= 5
  {
    Min(2 + level / 2, 5)
  }

  function Cols(level: nat): (c: nat)
    ensures 4 <= c <= 8
  {
    Min(4 + level / 3, 8)
  }

  function Spacing(level: nat): (d: real)
    ensures d > 0.0
  {
    (Width - 100.0) / (Cols(level) - 1) as real
  }

  function Placed(level: nat, i: nat, j: nat, roll: (nat, nat) -> Roll): Enemy
  {
    Enemy(50.0 + j as real * Spacing(level), 50.0 + i as real * 60.0, roll(i, j).pattern, roll(i, j).phase)
  }

  /** Row `i` of the grid, left to right. */
  function Row(level: nat, i: nat, roll: (nat, nat) -> Roll): (r: seq<Enemy>)
    ensures |r| == Cols(level)
    ensures forall j :: 0 <= j < |r| ==> r[j] == Placed(level, i, j, roll)
  {
    seq(Cols(level), (j: int) requires 0 <= j => Placed(level, i, j, roll))
  }

  /** The first `n` rows, in the order the nested loops push them. */
  function RowsUpTo(level: nat, n: nat, roll: (nat, nat) -> Roll): seq<Enemy>
  {
    if n == 0 then [] else RowsUpTo(level, n - 1, roll) + Row(level, n - 1, roll)
  }

  /** The wave `spawnEnemies` appends for `level`. */
  function Grid(level: nat, roll: (nat, nat) -> Roll): seq<Enemy>
  {
    RowsUpTo(level, Rows(level), roll)
  }

  /** A wave has rows * cols enemies with 2 <= rows <= 5 and 4 <= cols <= 8;
      level 1 gives 8. */
  lemma GridSize(level: nat, roll: (nat, nat) -> Roll)
    ensures |Grid(level, roll)| == Rows(level) * Cols(level)
    ensures 8 <= |Grid(level, roll)| <= 40
    ensures level == 1 ==> |Grid(level, roll)| == 8
  {
    RowsUpToSize(level, Rows(level), roll);
    var r, c := Rows(level), Cols(level);
    assert 2 * c <= r * c <= 5 * c by {
      if r == 2 {
      } else if r == 3 {
      } else if r == 4 {
      } else {
        assert r == 5;
      }
    }
  }

  lemma {:induction false} RowsUpToSize(level: nat, n: nat, roll: (nat, nat) -> Roll)
    ensures |RowsUpTo(level, n, roll)| == n * Cols(level)
  {
    if n > 0 {
      RowsUpToSize(level, n - 1, roll);
      var c := Cols(level);
      assert n * c == (n - 1) * c + c;
    }
  }

  /** The grid holds exactly one enemy per cell: enemy (i, j) at
      x = 50 + j * spacing, y = 50 + 60 * i. */
  lemma {:induction false} GridCells(level: nat, n: nat, roll: (nat, nat) -> Roll, e: Enemy)
    ensures e in RowsUpTo(level, n, roll) <==>
            exists i, j :: 0 <= i < n && 0 <= j < Cols(level) && e == Placed(level, i, j, roll)
  {
    if n > 0 {
      GridCells(level, n - 1, roll, e);
      RowCells(level, n - 1, roll, e);
      assert RowsUpTo(level, n, roll) == RowsUpTo(level, n - 1, roll) + Row(level, n - 1, roll);
      CellsSplit(level, n - 1, roll, e);
    }
  }

  /** Row `i` holds exactly the enemies placed in its cells. */
  lemma RowCells(level: nat, i: nat, roll: (nat, nat) -> Roll, e: Enemy)
    ensures e in Row(level, i, roll) <==> exists j :: 0 <= j < Cols(level) && e == Placed(level, i, j, roll)
  {
    var row := Row(level, i, roll);
    if exists j :: 0 <= j < Cols(level) && e == Placed(level, i, j, roll) {
      var j :| 0 <= j < Cols(level) && e == Placed(level, i, j, roll);
      assert row[j] == e;
    }
  }

  /** A cell of the first `m + 1` rows lies in the first `m` rows or in row `m`. */
  lemma CellsSplit(level: nat, m: nat, roll: (nat, nat) -> Roll, e: Enemy)
    ensures (exists i, j :: 0 <= i < m + 1 && 0 <= j < Cols(level) && e == Placed(level, i, j, roll)) <==>
            (exists i, j :: 0 <= i < m && 0 <= j < Cols(level) && e == Placed(level, i, j, roll)) ||
            (exists j :: 0 <= j < Cols(level) && e == Placed(level, m, j, roll))
  {
    if exists i, j :: 0 <= i < m + 1 && 0 <= j < Cols(level) && e == Placed(level, i, j, roll) {
      var i, j :| 0 <= i < m + 1 && 0 <= j < Cols(level) && e == Placed(level, i, j, roll);
      if i == m {
        assert exists j :: 0 <= j < Cols(level) && e == Placed(level, m, j, roll);
      }
    }
  }

  /** Column `j` lies between the 50-pixel margins. */
  lemma SpacedColumn(level: nat, j: nat)
    requires j < Cols(level)
    ensures 0.0 <= j as real * Spacing(level) <= Width - 100.0
  {
    Fraction(j, Cols(level), Spacing(level));
  }

  /** Column `j` of `n` with the gap `d` that `Spacing` gives `n` columns. */
  predicate Gap(j: nat, n: nat, d: real)
  {
    4 <= n <= 8 && j < n && d == 250.0 / (n - 1) as real
  }

  /** `j` gaps of 250 / (`n` - 1), for the five column counts a grid can
      have. */
  lemma Fraction(j: nat, n: nat, d: real)
    requires Gap(j, n, d)
    ensures 0.0 <= j as real * d <= 250.0
  {
    if n == 4 {
      assert d == 250.0 / 3.0;
    } else if n == 5 {
      assert d == 250.0 / 4.0;
    } else if n == 6 {
      assert d == 250.0 / 5.0;
    } else if n == 7 {
      assert d == 250.0 / 6.0;
    } else {
      assert d == 250.0 / 7.0;
    }
  }

  /** Every spawned enemy starts inside the field, at least 50 from the left,
      right and top edges. */
  lemma GridInField(level: nat, roll: (nat, nat) -> Roll)
    ensures forall e :: e in Grid(level, roll) ==>
              InField(e) && 50.0 <= e.x <= Width - 50.0 && 50.0 <= e.y <= 290.0
  {
    forall e | e in Grid(level, roll)
      ensures InField(e) && 50.0 <= e.x <= Width - 50.0 && 50.0 <= e.y <= 290.0
    {
      GridCells(level, Rows(level), roll, e);
      var i, j :| 0 <= i < Rows(level) && 0 <= j < Cols(level) && e == Placed(level, i, j, roll);
      SpacedColumn(level, j);
    }
  }

  // ---------------------------------------------------------------------------
  // Enemy motion (the `switch (enemy.pattern)` of `render`)

  /** Moves enemy number `k` of the sweep by its pattern. A sine enemy is
      clamped to [0, Width - 40]; a circling enemy commits each axis only when
      it stays in range; a diving enemy drops 5 when its draw succeeds and it
      stays above the bottom. */
  function MoveEnemy(e: Enemy, m: Motion, k: nat): (r: Enemy)
    ensures r.pattern == e.pattern
    ensures e.pattern == Sine ==> 0.0 <= r.x <= Width - EnemySize && r.y == e.y
    ensures e.pattern == Circle ==>
              (r.x == e.x || 0.0 <= r.x <= Width - EnemySize) && (r.y == e.y || 0.0 <= r.y <= Height / 2.0)
    ensures e.pattern == Dive ==>
              r.x == e.x && (r.y == e.y || (r.y == e.y + 5.0 && r.y <= Height - EnemySize))
    ensures InField(e) ==> InField(r)
  {
    match e.pattern
    case Sine =>
      var x := e.x + m.sin(e.phase) * 2.0;
      var upper := if Width - EnemySize < x then Width - EnemySize else x;
      e.(x := if 0.0 < upper then upper else 0.0, phase := e.phase + 0.05)
    case Circle =>
      var nx := e.x + m.cos(e.phase) * 2.0;
      var ny := e.y + m.sin(e.phase) * 2.0;
      e.(x := if 0.0 <= nx <= Width - EnemySize then nx else e.x,
         y := if 0.0 <= ny <= Height / 2.0 then ny else e.y,
         phase := e.phase + 0.03)
    case Dive =>
      if m.dive(k) && e.y + 5.0 <= Height - EnemySize then e.(y := e.y + 5.0) else e
  }

  // ---------------------------------------------------------------------------
  // Player projectiles: `projectiles.forEach` moving up 7 and splicing at y < 0

  function Lifted(s: Shot): Shot
  {
    s.(y := s.y - ShotRise)
  }

  /** The `forEach` from index `k` on. A spliced shot lets its successor slide
      into index `k`, and the loop goes on at `k + 1`, so that successor is
      neither moved nor checked for leaving this frame. */
  function Rise(ps: seq<Shot>, k: nat): (r: seq<Shot>)
    decreases |ps| - k
    ensures |r| <= |ps|
  {
    if k >= |ps| then ps
    else if Lifted(ps[k]).y < 0.0 then Rise(RemoveAt(ps, k), k + 1)
    else Rise(ps[k := Lifted(ps[k])], k + 1)
  }

  /** Shots before `k` are untouched by the pass from `k`. */
  lemma {:induction false} RiseKeepsPrefix(ps: seq<Shot>, k: nat)
    requires k <= |ps|
    decreases |ps| - k
    ensures Agree(Rise(ps, k), ps, k)
  {
    if k < |ps| {
      var s := Lifted(ps[k]);
      var q := if s.y < 0.0 then RemoveAt(ps, k) else ps[k := s];
      assert Rise(ps, k) == Rise(q, k + 1);
      if s.y < 0.0 {
        RemoveAtShifts(ps, k);
      } else {
        assert Agree(q, ps, k);
      }
      if k + 1 <= |q| {
        RiseKeepsPrefix(q, k + 1);
        AgreeShorter(Rise(q, k + 1), q, k);
      } else {
        assert Rise(q, k + 1) == q;
      }
    } else {
      assert Rise(ps, k) == ps;
    }
  }

  /** A shot the pass from `k` may leave at index `k` or later: an original
      shot from there on, or such a shot lifted by 7 and still on the screen. */
  predicate Risen(s: Shot, rest: seq<Shot>)
  {
    s in rest || (s.y >= 0.0 && s.(y := s.y + ShotRise) in rest)
  }

  lemma RisenInLonger(s: Shot, front: seq<Shot>, rest: seq<Shot>)
    requires Risen(s, rest)
    ensures Risen(s, front + rest)
  {
  }

  /** Every shot the pass from `k` leaves at index `k` or later passes `Risen`. */
  lemma {:induction false} RiseOrigins(ps: seq<Shot>, k: nat)
    requires k <= |ps|
    decreases |ps| - k, 1
    ensures forall i :: k <= i < |Rise(ps, k)| ==> Risen(Rise(ps, k)[i], ps[k..])
  {
    if k < |ps| {
      if Lifted(ps[k]).y < 0.0 {
        DroppedOrigins(ps, k);
      } else {
        LiftedOrigins(ps, k);
      }
    }
  }

  /** The step of `RiseOrigins` where the shot at `k` is spliced. */
  lemma {:induction false} DroppedOrigins(ps: seq<Shot>, k: nat)
    requires k < |ps| && Lifted(ps[k]).y < 0.0
    decreases |ps| - k, 0
    ensures forall i :: k <= i < |Rise(ps, k)| ==> Risen(Rise(ps, k)[i], ps[k..])
  {
    var q := RemoveAt(ps, k);
    var r := Rise(q, k + 1);
    assert Rise(ps, k) == r;
    if k + 1 <= |q| {
      RemoveAtShifts(ps, k);
      RiseOrigins(q, k + 1);
      RiseKeepsPrefix(q, k + 1);
      AgreeShorter(r, q, k);
      assert q[k + 1..] == ps[k + 2..];
      assert ps[k..] == ps[k..k + 2] + ps[k + 2..];
      forall i | k <= i < |r|
        ensures Risen(r[i], ps[k..])
      {
        if i == k {
          assert r[k] == q[k] == ps[k + 1] == ps[k..][1];
        } else {
          RisenInLonger(r[i], ps[k..k + 2], ps[k + 2..]);
        }
      }
    } else {
      assert r == q;
    }
  }

  /** The step of `RiseOrigins` where the shot at `k` is lifted. */
  lemma {:induction false} LiftedOrigins(ps: seq<Shot>, k: nat)
    requires k < |ps| && Lifted(ps[k]).y >= 0.0
    decreases |ps| - k, 0
    ensures forall i :: k <= i < |Rise(ps, k)| ==> Risen(Rise(ps, k)[i], ps[k..])
  {
    var s := Lifted(ps[k]);
    var q := ps[k := s];
    var r := Rise(q, k + 1);
    assert Rise(ps, k) == r;
    RiseOrigins(q, k + 1);
    RiseKeepsPrefix(q, k + 1);
    AgreeShorter(r, q, k);
    assert q[k + 1..] == ps[k + 1..];
    assert ps[k..] == [ps[k]] + ps[k + 1..];
    forall i | k <= i < |r|
      ensures Risen(r[i], ps[k..])
    {
      if i == k {
        assert r[k] == s;
        assert s.(y := s.y + ShotRise) == ps[k];
      } else {
        RisenInLonger(r[i], [ps[k]], ps[k + 1..]);
      }
    }
  }

  /** When no shot from `k` on leaves the screen, every one of them moves up
      by exactly 7 and none is lost. */
  lemma {:induction false} RiseLiftsAll(ps: seq<Shot>, k: nat)
    requires k <= |ps|
    requires forall i :: k <= i < |ps| ==> ps[i].y >= ShotRise
    decreases |ps| - k
    ensures |Rise(ps, k)| == |ps|
    ensures forall i :: k <= i < |ps| ==> Rise(ps, k)[i] == Lifted(ps[i])
  {
    if k < |ps| {
      var q := ps[k := Lifted(ps[k])];
      RiseLiftsAll(q, k + 1);
      RiseKeepsPrefix(q, k + 1);
      assert Rise(ps, k)[k] == q[k];
    }
  }

  /** The pass told on the shots it has not visited yet, the next one first:
      a shot that would leave is dropped, and its successor slides past the
      visit unmoved; any other shot rises by 7. */
  function Ascent(rest: seq<Shot>): (r: seq<Shot>)
    decreases |rest|
    ensures |r| <= |rest|
  {
    if rest == [] then []
    else if Lifted(rest[0]).y < 0.0 then
      (if |rest| == 1 then [] else [rest[1]] + Ascent(rest[2..]))
    else [Lifted(rest[0])] + Ascent(rest[1..])
  }

  /** The in-place pass from `k` keeps the shots before `k` and leaves
      exactly `Ascent` of the unvisited rest after them. */
  lemma {:induction false} RiseIsAscent(ps: seq<Shot>, k: nat)
    requires k <= |ps|
    decreases |ps| - k, 1
    ensures Rise(ps, k) == ps[..k] + Ascent(ps[k..])
  {
    if k == |ps| {
      assert ps[k..] == [] && ps[..k] == ps;
    } else if Lifted(ps[k]).y < 0.0 {
      DroppedAscent(ps, k);
    } else {
      LiftedAscent(ps, k);
    }
  }

  /** The step of `RiseIsAscent` where the shot at `k` leaves. */
  lemma {:induction false} DroppedAscent(ps: seq<Shot>, k: nat)
    requires k < |ps| && Lifted(ps[k]).y < 0.0
    decreases |ps| - k, 0
    ensures Rise(ps, k) == ps[..k] + Ascent(ps[k..])
  {
    var q := RemoveAt(ps, k);
    assert Rise(ps, k) == Rise(q, k + 1);
    if k + 1 < |ps| {
      RiseIsAscent(q, k + 1);
      SpliceSplit(ps, k);
      AscentDrops(ps[k..]);
      assert ps[k..][2..] == ps[k + 2..];
      Regroup(ps[..k], [ps[k + 1]], Ascent(ps[k + 2..]));
    } else {
      assert q == ps[..k] && ps[k..] == [ps[k]];
    }
  }

  /** The step of `RiseIsAscent` where the shot at `k` rises. */
  lemma {:induction false} LiftedAscent(ps: seq<Shot>, k: nat)
    requires k < |ps| && Lifted(ps[k]).y >= 0.0
    decreases |ps| - k, 0
    ensures Rise(ps, k) == ps[..k] + Ascent(ps[k..])
  {
    var q := ps[k := Lifted(ps[k])];
    assert Rise(ps, k) == Rise(q, k + 1);
    RiseIsAscent(q, k + 1);
    UpdateSplit(ps, k, Lifted(ps[k]));
    AscentLifts(ps[k..]);
    assert ps[k..][1..] == ps[k + 1..];
    Regroup(ps[..k], [Lifted(ps[k])], Ascent(ps[k + 1..]));
  }

  lemma AscentDrops(rest: seq<Shot>)
    requires |rest| >= 2 && Lifted(rest[0]).y < 0.0
    ensures Ascent(rest) == [rest[1]] + Ascent(rest[2..])
  {
  }

  lemma AscentLifts(rest: seq<Shot>)
    requires |rest| >= 1 && Lifted(rest[0]).y >= 0.0
    ensures Ascent(rest) == [Lifted(rest[0])] + Ascent(rest[1..])
  {
  }

  /** Wherever a shot leaves, the shot after it slides into its slot and is
      left there unmoved, whether or not it would have left the screen. */
  lemma RiseSkipsSuccessor(ps: seq<Shot>, k: nat)
    requires k + 1 < |ps| && Lifted(ps[k]).y < 0.0
    ensures k < |Rise(ps, k)| && Rise(ps, k)[k] == ps[k + 1]
  {
    RiseIsAscent(ps, k);
    assert ps[k..][1] == ps[k + 1];
    assert Ascent(ps[k..])[0] == ps[k + 1];
  }

  /** JavaScript's skip in a concrete case: the second shot slides into the
      slot of the first, is skipped, and survives unmoved, although it would
      leave the screen if it were moved. */
  lemma RiseSkipsShifted()
    ensures Rise([Shot(10.0, 3.0), Shot(20.0, 3.0)], 0) == [Shot(20.0, 3.0)]
  {
    assert RemoveAt([Shot(10.0, 3.0), Shot(20.0, 3.0)], 0) == [Shot(20.0, 3.0)];
  }

  // ---------------------------------------------------------------------------
  // Enemy versus player projectile (the inner `projectiles.forEach`)

  function EnemyBox(e: Enemy): Rect
  {
    Rect(e.x, e.y, EnemySize, EnemySize)
  }

  /** The hit test: the projectile's centre strictly inside all four edges. */
  predicate Hits(s: Shot, e: Enemy)
  {
    Within(s.x, s.y, EnemyBox(e))
  }

  /** What the enemy sweep changes: enemies, projectiles, score, particles created. */
  datatype Arena = Arena(enemies: seq<Enemy>, shots: seq<Shot>, score: int, sparks: nat)

  /** The inner loop for enemy `e`, which sat at index `k`, from projectile `j`
      on. Each hit splices `enemies[k]`, splices the projectile, adds 100 and
      one burst of particles. The closure keeps testing `e` after its own
      removal, so a second hit splices the enemy that slid into index `k`. */
  function Strike(e: Enemy, k: nat, a: Arena, j: nat): (r: Arena)
    decreases |a.shots| - j
    ensures |r.shots| <= |a.shots| && |r.enemies| <= |a.enemies|
  {
    if j >= |a.shots| then a
    else if Hits(a.shots[j], e) then
      Strike(e, k, Arena(RemoveAt(a.enemies, k), RemoveAt(a.shots, j), a.score + EnemyPoints, a.sparks + Burst), j + 1)
    else
      Strike(e, k, a, j + 1)
  }

  /** Number of projectiles a call of `Strike` removed. */
  function Spent(a: Arena, r: Arena): int
  {
    |a.shots| - |r.shots|
  }

  /** Each projectile spent is worth 100 points and one burst of particles. */
  lemma {:induction false} StrikeScores(e: Enemy, k: nat, a: Arena, j: nat)
    decreases |a.shots| - j
    ensures Strike(e, k, a, j).score == a.score + EnemyPoints * Spent(a, Strike(e, k, a, j))
    ensures Strike(e, k, a, j).sparks == a.sparks + Burst * Spent(a, Strike(e, k, a, j))
  {
    if j < |a.shots| {
      if Hits(a.shots[j], e) {
        StrikeScores(e, k, Arena(RemoveAt(a.enemies, k), RemoveAt(a.shots, j), a.score + EnemyPoints, a.sparks + Burst), j + 1);
      } else {
        StrikeScores(e, k, a, j + 1);
      }
    }
  }

  /** Taking one element `h` out and then some more: whatever is gone is `h`
      or was among the more. */
  lemma Peel<T>(all: multiset<T>, before: multiset<T>, after: multiset<T>, h: T)
    requires before + multiset{h} == all && after <= before
    ensures after <= all
    ensures forall x :: x in all - after ==> x == h || x in before - after
  {
    forall x | x in all - after && x != h ensures x in before - after {
      assert all[x] == before[x];
    }
  }

  /** Only projectiles that hit the enemy are removed. */
  lemma {:induction false} StrikeSpendsHits(e: Enemy, k: nat, a: Arena, j: nat)
    decreases |a.shots| - j, 1
    ensures multiset(Strike(e, k, a, j).shots) <= multiset(a.shots)
    ensures forall s :: s in multiset(a.shots) - multiset(Strike(e, k, a, j).shots) ==> Hits(s, e)
  {
    if j < |a.shots| {
      if Hits(a.shots[j], e) {
        HitSpendsHits(e, k, a, j);
      } else {
        StrikeSpendsHits(e, k, a, j + 1);
      }
    }
  }

  /** The step of `StrikeSpendsHits` where projectile `j` hits. */
  lemma {:induction false} HitSpendsHits(e: Enemy, k: nat, a: Arena, j: nat)
    requires j < |a.shots| && Hits(a.shots[j], e)
    decreases |a.shots| - j, 0
    ensures multiset(Strike(e, k, a, j).shots) <= multiset(a.shots)
    ensures forall s :: s in multiset(a.shots) - multiset(Strike(e, k, a, j).shots) ==> Hits(s, e)
  {
    var next := Arena(RemoveAt(a.enemies, k), RemoveAt(a.shots, j), a.score + EnemyPoints, a.sparks + Burst);
    var r := Strike(e, k, next, j + 1);
    assert r == Strike(e, k, a, j);
    StrikeSpendsHits(e, k, next, j + 1);
    RemoveAtShifts(a.shots, j);
    Peel(multiset(a.shots), multiset(next.shots), multiset(r.shots), a.shots[j]);
  }

  /** Some projectile is removed exactly when one from index `j` on hits. */
  lemma {:induction false} StrikeSpendsIff(e: Enemy, k: nat, a: Arena, j: nat)
    decreases |a.shots| - j
    ensures Spent(a, Strike(e, k, a, j)) > 0 <==> exists i :: j <= i < |a.shots| && Hits(a.shots[i], e)
  {
    if j < |a.shots| && !Hits(a.shots[j], e) {
      StrikeSpendsIff(e, k, a, j + 1);
      assert (exists i :: j <= i < |a.shots| && Hits(a.shots[i], e)) ==>
             exists i :: j + 1 <= i < |a.shots| && Hits(a.shots[i], e);
    }
  }

  /** The enemies a call of `Strike` removes are one block starting at `k`, as
      long as the number of projectiles spent, cut short at the end of the list. */
  lemma {:induction false} StrikeEnemies(e: Enemy, k: nat, a: Arena, j: nat)
    requires k <= |a.enemies|
    decreases |a.shots| - j, 1
    ensures Strike(e, k, a, j).enemies == Cut(a.enemies, k, Spent(a, Strike(e, k, a, j)))
  {
    if j >= |a.shots| {
      assert a.enemies[..k] + a.enemies[k..] == a.enemies;
    } else if Hits(a.shots[j], e) {
      HitEnemies(e, k, a, j);
    } else {
      assert Strike(e, k, a, j) == Strike(e, k, a, j + 1);
      StrikeEnemies(e, k, a, j + 1);
    }
  }

  /** The step of `StrikeEnemies` where projectile `j` hits. */
  lemma {:induction false} HitEnemies(e: Enemy, k: nat, a: Arena, j: nat)
    requires k <= |a.enemies| && j < |a.shots| && Hits(a.shots[j], e)
    decreases |a.shots| - j, 0
    ensures Strike(e, k, a, j).enemies == Cut(a.enemies, k, Spent(a, Strike(e, k, a, j)))
  {
    var next := Arena(RemoveAt(a.enemies, k), RemoveAt(a.shots, j), a.score + EnemyPoints, a.sparks + Burst);
    var r := Strike(e, k, next, j + 1);
    assert r == Strike(e, k, a, j);
    assert k <= |next.enemies|;
    StrikeEnemies(e, k, next, j + 1);
    assert r.enemies == Cut(next.enemies, k, Spent(next, r));
    assert Spent(a, r) == Spent(next, r) + 1;
    CutStep(a.enemies, k, Spent(next, r));
  }

  /** One visited enemy: it moves, then meets every projectile. */
  function Visit(a: Arena, m: Motion, k: nat): (r: Arena)
    requires k < |a.enemies|
    ensures |r.shots| <= |a.shots| && |r.enemies| <= |a.enemies|
  {
    Strike(MoveEnemy(a.enemies[k], m, k), k, a.(enemies := a.enemies[k := MoveEnemy(a.enemies[k], m, k)]), 0)
  }

  /** The outer `enemies.forEach` from index `k` on. An enemy that slides into
      a spliced slot is neither moved nor hit this frame. */
  function Sweep(a: Arena, m: Motion, k: nat): (r: Arena)
    decreases |a.enemies| - k
    ensures |r.shots| <= |a.shots| && |r.enemies| <= |a.enemies|
  {
    if k >= |a.enemies| then a else Sweep(Visit(a, m, k), m, k + 1)
  }

  /** One visit keeps the accounting of `StrikeScores`, removes no more enemies
      than projectiles, and leaves only enemies that were there or the moved one. */
  lemma VisitAccounts(a: Arena, m: Motion, k: nat)
    requires k < |a.enemies|
    ensures var r := Visit(a, m, k);
            && r.score == a.score + EnemyPoints * Spent(a, r)
            && r.sparks == a.sparks + Burst * Spent(a, r)
            && |a.enemies| - |r.enemies| <= Spent(a, r)
            && multiset(r.shots) <= multiset(a.shots)
            && (forall x :: x in r.enemies ==> x in a.enemies || x == MoveEnemy(a.enemies[k], m, k))
  {
    var e := MoveEnemy(a.enemies[k], m, k);
    var moved := a.(enemies := a.enemies[k := e]);
    StrikeScores(e, k, moved, 0);
    StrikeSpendsHits(e, k, moved, 0);
    StrikeEnemies(e, k, moved, 0);
    var r := Strike(e, k, moved, 0);
    forall x | x in r.enemies ensures x in a.enemies || x == e {
      assert x in moved.enemies;
    }
  }

  /** The whole sweep: score and particles grow by 100 and 8 per projectile
      spent, at most one enemy leaves per projectile spent, projectiles only
      leave, and enemies stay inside the field. */
  lemma {:induction false} SweepAccounts(a: Arena, m: Motion, k: nat)
    decreases |a.enemies| - k
    ensures var r := Sweep(a, m, k);
            && r.score == a.score + EnemyPoints * Spent(a, r)
            && r.sparks == a.sparks + Burst * Spent(a, r)
            && |a.enemies| - |r.enemies| <= Spent(a, r)
            && multiset(r.shots) <= multiset(a.shots)
            && ((forall x :: x in a.enemies ==> InField(x)) ==> forall x :: x in r.enemies ==> InField(x))
  {
    SweepKeepsField(a, m, k);
    if k < |a.enemies| {
      var v := Visit(a, m, k);
      VisitAccounts(a, m, k);
      SweepAccounts(v, m, k + 1);
      var r := Sweep(v, m, k + 1);
      assert Sweep(a, m, k) == r;
      assert Spent(a, r) == Spent(a, v) + Spent(v, r);
    }
  }

  /** Enemies on the field stay on it through the enemy pass. */
  lemma {:induction false} SweepKeepsField(a: Arena, m: Motion, k: nat)
    decreases |a.enemies| - k
    ensures (forall x :: x in a.enemies ==> InField(x)) ==> forall x :: x in Sweep(a, m, k).enemies ==> InField(x)
  {
    if k < |a.enemies| {
      var v := Visit(a, m, k);
      VisitAccounts(a, m, k);
      SweepKeepsField(v, m, k + 1);
    }
  }

  // ---------------------------------------------------------------------------
  // The boss: drift, aimed volleys, its projectiles, and damage

  /** `createBoss`: centred, 50 from the top, full health. */
  const NewBoss: Boss := Boss(Width / 2.0 - BossSize / 2.0, 50.0, BossStartHealth)

  function BossBox(b: Boss): Rect
  {
    Rect(b.x, b.y, BossSize, BossSize)
  }

  function PlayerBox(px: real): Rect
  {
    Rect(px, PlayerY, PlayerSize, PlayerSize)
  }

  /** The three projectiles of one volley leave from the middle of the boss's
      lower edge. */
  function Fire(b: Boss, v: Volley): (r: seq<BossShot>)
    ensures |r| == 3
    ensures forall i :: 0 <= i < 3 ==> r[i].x == b.x + BossSize / 2.0 && r[i].y == b.y + BossSize
  {
    var x, y := b.x + BossSize / 2.0, b.y + BossSize;
    [BossShot(x, y, v.low.vx, v.low.vy), BossShot(x, y, v.mid.vx, v.mid.vy), BossShot(x, y, v.high.vx, v.high.vy)]
  }

  function Travel(s: BossShot): BossShot
  {
    s.(x := s.x + s.vx, y := s.y + s.vy)
  }

  /** The inverse of `Travel`. */
  function Untravel(s: BossShot): BossShot
  {
    s.(x := s.x - s.vx, y := s.y - s.vy)
  }

  predicate OffScreen(s: BossShot)
  {
    s.x < 0.0 || s.x > Width || s.y < 0.0 || s.y > Height
  }

  predicate StrikesPlayer(s: BossShot, px: real)
  {
    Within(s.x, s.y, PlayerBox(px))
  }

  /** What the boss projectile pass yields: the remaining projectiles, whether
      one reached the player, and the particle count. */
  datatype Salvo = Salvo(shots: seq<BossShot>, playerHit: bool, sparks: nat)

  /** `bossProjectiles.forEach` from index `k` on: each projectile travels; one
      off the screen is spliced; one inside the player is spliced, makes a
      burst and ends the game. Splicing skips the successor, as in `Rise`. */
  function Barrage(bs: seq<BossShot>, k: nat, px: real, hit: bool, sparks: nat): (r: Salvo)
    decreases |bs| - k
    ensures |r.shots| <= |bs|
  {
    if k >= |bs| then Salvo(bs, hit, sparks)
    else
      var s := Travel(bs[k]);
      if OffScreen(s) then Barrage(RemoveAt(bs, k), k + 1, px, hit, sparks)
      else if StrikesPlayer(s, px) then Barrage(RemoveAt(bs, k), k + 1, px, true, sparks + Burst)
      else Barrage(bs[k := s], k + 1, px, hit, sparks)
  }

  /** A boss projectile that, after travelling, is on the screen and inside
      the player. */
  predicate Reaches(s: BossShot, px: real)
  {
    !OffScreen(Travel(s)) && StrikesPlayer(Travel(s), px)
  }

  /** Particles are made only for hits on the player, and the player is
      reported hit exactly when it already was or particles were made. */
  lemma {:induction false} BarrageSparks(bs: seq<BossShot>, k: nat, px: real, hit: bool, sparks: nat)
    decreases |bs| - k
    ensures var r := Barrage(bs, k, px, hit, sparks);
            (r.playerHit <==> hit || r.sparks > sparks) && r.sparks >= sparks
  {
    if k < |bs| {
      var s := Travel(bs[k]);
      if OffScreen(s) {
        BarrageSparks(RemoveAt(bs, k), k + 1, px, hit, sparks);
      } else if StrikesPlayer(s, px) {
        BarrageSparks(RemoveAt(bs, k), k + 1, px, true, sparks + Burst);
      } else {
        BarrageSparks(bs[k := s], k + 1, px, hit, sparks);
      }
    }
  }

  /** The player is reported hit only when some projectile from index `k` on
      `Reaches` it, and the projectile visited first does set the hit when it
      reaches the player. */
  lemma {:induction false} BarrageHitHasCause(bs: seq<BossShot>, k: nat, px: real, hit: bool, sparks: nat)
    decreases |bs| - k, 1
    ensures Barrage(bs, k, px, hit, sparks).playerHit && !hit ==> exists i :: k <= i < |bs| && Reaches(bs[i], px)
    ensures k < |bs| && Reaches(bs[k], px) ==> Barrage(bs, k, px, hit, sparks).playerHit
  {
    if k <= |bs| {
      BarrageReachHits(bs, k, px, hit, sparks);
    }
    if k < |bs| {
      var s := Travel(bs[k]);
      if OffScreen(s) {
        DroppedCause(bs, k, px, hit, sparks);
      } else if StrikesPlayer(s, px) {
        assert Reaches(bs[k], px);
      } else {
        PassedCause(bs, k, px, hit, sparks);
      }
    }
  }

  /** The step of `BarrageHitHasCause` where the projectile at `k` leaves the screen. */
  lemma {:induction false} DroppedCause(bs: seq<BossShot>, k: nat, px: real, hit: bool, sparks: nat)
    requires k < |bs| && OffScreen(Travel(bs[k]))
    decreases |bs| - k, 0
    ensures Barrage(bs, k, px, hit, sparks).playerHit && !hit ==> exists i :: k <= i < |bs| && Reaches(bs[i], px)
  {
    var q := RemoveAt(bs, k);
    var r := Barrage(q, k + 1, px, hit, sparks);
    assert Barrage(bs, k, px, hit, sparks) == r;
    BarrageHitHasCause(q, k + 1, px, hit, sparks);
    if r.playerHit && !hit {
      var i :| k + 1 <= i < |q| && Reaches(q[i], px);
      SplicedAt(bs, k, i);
      assert Reaches(bs[i + 1], px);
    }
  }

  /** After `splice(k, 1)`, slot `i` at or past `k` holds the old element `i + 1`. */
  lemma SplicedAt<T>(s: seq<T>, k: nat, i: nat)
    requires k <= i && i + 1 < |s|
    ensures RemoveAt(s, k)[i] == s[i + 1]
  {
  }

  /** The step of `BarrageHitHasCause` where the projectile at `k` travels on. */
  lemma {:induction false} PassedCause(bs: seq<BossShot>, k: nat, px: real, hit: bool, sparks: nat)
    requires k < |bs| && !OffScreen(Travel(bs[k])) && !StrikesPlayer(Travel(bs[k]), px)
    decreases |bs| - k, 0
    ensures Barrage(bs, k, px, hit, sparks).playerHit && !hit ==> exists i :: k <= i < |bs| && Reaches(bs[i], px)
  {
    var q := bs[k := Travel(bs[k])];
    var r := Barrage(q, k + 1, px, hit, sparks);
    assert Barrage(bs, k, px, hit, sparks) == r;
    BarrageHitHasCause(q, k + 1, px, hit, sparks);
    if r.playerHit && !hit {
      var i :| k + 1 <= i < |q| && Reaches(q[i], px);
      assert q[i] == bs[i];
    }
  }

  /** Projectiles before `k` are untouched by the pass from `k`. */
  lemma {:induction false} BarrageKeepsPrefix(bs: seq<BossShot>, k: nat, px: real, hit: bool, sparks: nat)
    requires k <= |bs|
    decreases |bs| - k
    ensures Agree(Barrage(bs, k, px, hit, sparks).shots, bs, k)
  {
    if k < |bs| {
      var s := Travel(bs[k]);
      var struck := !OffScreen(s) && StrikesPlayer(s, px);
      var q := if OffScreen(s) || struck then RemoveAt(bs, k) else bs[k := s];
      var sparks': nat := if struck then sparks + Burst else sparks;
      var r := Barrage(q, k + 1, px, hit || struck, sparks');
      BarrageStep(bs, k, px, hit, sparks);
      if OffScreen(s) || struck {
        RemoveAtShifts(bs, k);
      } else {
        assert Agree(q, bs, k);
      }
      if k + 1 <= |q| {
        BarrageKeepsPrefix(q, k + 1, px, hit || struck, sparks');
      } else {
        assert r.shots == q;
      }
      AgreeThrough(bs, q, r.shots, k);
    }
  }

  /** One step of `Barrage`: the projectile at `k` is spliced or replaced by
      its travelled copy, and the pass goes on at `k + 1`. */
  lemma BarrageStep(bs: seq<BossShot>, k: nat, px: real, hit: bool, sparks: nat)
    requires k < |bs|
    ensures var s := Travel(bs[k]);
            var struck := !OffScreen(s) && StrikesPlayer(s, px);
            var q := if OffScreen(s) || struck then RemoveAt(bs, k) else bs[k := s];
            Barrage(bs, k, px, hit, sparks) ==
              Barrage(q, k + 1, px, hit || struck, if struck then sparks + Burst else sparks)
  {
  }

  lemma AgreeThrough<T>(a: seq<T>, b: seq<T>, c: seq<T>, k: nat)
    requires Agree(b, a, k)
    requires k + 1 <= |b| ==> Agree(c, b, k + 1)
    requires |b| < k + 1 ==> c == b
    ensures Agree(c, a, k)
  {
    if k + 1 <= |b| {
      AgreeShorter(c, b, k);
    }
  }

  /** A projectile the pass from `k` may keep at index `k` or later: an
      original from there on, or such an original that travelled and is still
      on the screen and clear of the player. */
  predicate KeptShot(s: BossShot, rest: seq<BossShot>, px: real)
  {
    s in rest || (!OffScreen(s) && !StrikesPlayer(s, px) && Untravel(s) in rest)
  }

  lemma KeptInLonger(s: BossShot, front: seq<BossShot>, rest: seq<BossShot>, px: real)
    requires KeptShot(s, rest, px)
    ensures KeptShot(s, front + rest, px)
  {
  }

  /** Every projectile of `rs` from index `from` on passes `KeptShot`. */
  ghost predicate AllKept(rs: seq<BossShot>, from: nat, rest: seq<BossShot>, px: real)
  {
    forall i :: from <= i < |rs| ==> KeptShot(rs[i], rest, px)
  }

  /** Every projectile kept from index `k` on passes `KeptShot`. */
  lemma {:induction false} BarrageKeeps(bs: seq<BossShot>, k: nat, px: real, hit: bool, sparks: nat)
    requires k <= |bs|
    decreases |bs| - k
    ensures AllKept(Barrage(bs, k, px, hit, sparks).shots, k, bs[k..], px)
  {
    if k < |bs| {
      var s := Travel(bs[k]);
      if OffScreen(s) {
        DroppedKeeps(bs, k, px, hit, sparks, hit, sparks);
      } else if StrikesPlayer(s, px) {
        DroppedKeeps(bs, k, px, hit, sparks, true, sparks + Burst);
      } else {
        var q := bs[k := s];
        var r := Barrage(q, k + 1, px, hit, sparks);
        assert Barrage(bs, k, px, hit, sparks) == r;
        BarrageKeeps(q, k + 1, px, hit, sparks);
        BarrageKeepsPrefix(q, k + 1, px, hit, sparks);
        MovedKept(bs, k, r.shots, px);
      }
    }
  }

  /** The projectile at `k` travelled and stayed: the kept ones from `k` on
      pass `KeptShot` against `bs[k..]` when those from `k + 1` on do against
      the rest. */
  lemma MovedKept(bs: seq<BossShot>, k: nat, rs: seq<BossShot>, px: real)
    requires k < |bs| && !OffScreen(Travel(bs[k])) && !StrikesPlayer(Travel(bs[k]), px)
    requires Agree(rs, bs[k := Travel(bs[k])], k + 1)
    requires AllKept(rs, k + 1, bs[k + 1..], px)
    ensures AllKept(rs, k, bs[k..], px)
  {
    var q := bs[k := Travel(bs[k])];
    AgreeShorter(rs, q, k);
    assert bs[k..] == [bs[k]] + bs[k + 1..];
    forall i | k <= i < |rs| ensures KeptShot(rs[i], bs[k..], px) {
      if i == k {
        assert Untravel(rs[k]) == bs[k];
      } else {
        assert KeptShot(rs[i], bs[k + 1..], px);
        KeptInLonger(rs[i], [bs[k]], bs[k + 1..], px);
      }
    }
  }

  /** The step of `BarrageKeeps` where the projectile at `k` is spliced. */
  lemma {:induction false} DroppedKeeps(bs: seq<BossShot>, k: nat, px: real, hit: bool, sparks: nat, hit': bool, sparks': nat)
    requires k < |bs|
    requires Barrage(bs, k, px, hit, sparks) == Barrage(RemoveAt(bs, k), k + 1, px, hit', sparks')
    decreases |bs| - k, 0
    ensures AllKept(Barrage(bs, k, px, hit, sparks).shots, k, bs[k..], px)
  {
    var q := RemoveAt(bs, k);
    var r := Barrage(q, k + 1, px, hit', sparks');
    if k + 1 <= |q| {
      BarrageKeeps(q, k + 1, px, hit', sparks');
      BarrageKeepsPrefix(q, k + 1, px, hit', sparks');
      ShiftedKept(bs, k, r.shots, px);
    } else {
      assert r == Salvo(q, hit', sparks');
    }
  }

  /** The projectile at `k` was spliced: the kept ones from `k` on pass
      `KeptShot` against `bs[k..]` when those from `k + 1` on do against what
      follows the successor that slid into `k`. */
  lemma ShiftedKept(bs: seq<BossShot>, k: nat, rs: seq<BossShot>, px: real)
    requires k + 1 < |bs|
    requires Agree(rs, RemoveAt(bs, k), k + 1)
    requires AllKept(rs, k + 1, RemoveAt(bs, k)[k + 1..], px)
    ensures AllKept(rs, k, bs[k..], px)
  {
    var q := RemoveAt(bs, k);
    AgreeShorter(rs, q, k);
    RemoveAtShifts(bs, k);
    assert q[k + 1..] == bs[k + 2..];
    assert bs[k..] == bs[k..k + 2] + bs[k + 2..];
    forall i | k <= i < |rs| ensures KeptShot(rs[i], bs[k..], px) {
      if i == k {
        assert rs[k] == q[k] == bs[k + 1] == bs[k..][1];
      } else {
        assert KeptShot(rs[i], q[k + 1..], px);
        KeptInLonger(rs[i], bs[k..k + 2], q[k + 1..], px);
      }
    }
  }

  /** The boss pass told on the projectiles it has not visited yet, the next
      one first: one that leaves the screen or strikes the player is dropped,
      and its successor slides past the visit unmoved; any other travels.
      The flag says whether a visited projectile struck the player and the
      count how many particles the strikes made. */
  function Onslaught(rest: seq<BossShot>, px: real): (r: Salvo)
    decreases |rest|
    ensures |r.shots| <= |rest|
  {
    if rest == [] then Salvo([], false, 0)
    else if OffScreen(Travel(rest[0])) || Reaches(rest[0], px) then
      var t := if |rest| == 1 then Salvo([], false, 0) else Carried(rest[1], Onslaught(rest[2..], px));
      if Reaches(rest[0], px) then t.(playerHit := true, sparks := t.sparks + Burst) else t
    else Carried(Travel(rest[0]), Onslaught(rest[1..], px))
  }

  function Carried(s: BossShot, v: Salvo): Salvo
  {
    v.(shots := [s] + v.shots)
  }

  /** The in-place pass from `k` keeps the projectiles before `k`, leaves
      `Onslaught` of the unvisited rest after them, reports the player hit
      when it already was or the rest struck it, and adds the rest's
      particles. */
  lemma {:induction false} BarrageIsOnslaught(bs: seq<BossShot>, k: nat, px: real, hit: bool, sparks: nat)
    requires k <= |bs|
    decreases |bs| - k, 1
    ensures var v := Onslaught(bs[k..], px);
            Barrage(bs, k, px, hit, sparks) == Salvo(bs[..k] + v.shots, hit || v.playerHit, sparks + v.sparks)
  {
    if k == |bs| {
      assert bs[k..] == [] && bs[..k] == bs;
    } else if OffScreen(Travel(bs[k])) {
      LeftOnslaught(bs, k, px, hit, sparks);
    } else if Reaches(bs[k], px) {
      StruckOnslaught(bs, k, px, hit, sparks);
    } else {
      MovedOnslaught(bs, k, px, hit, sparks);
    }
  }

  /** The step of `BarrageIsOnslaught` where the projectile at `k` leaves
      the screen and is spliced. */
  lemma {:induction false} LeftOnslaught(bs: seq<BossShot>, k: nat, px: real, hit: bool, sparks: nat)
    requires k < |bs| && OffScreen(Travel(bs[k]))
    decreases |bs| - k, 0
    ensures var v := Onslaught(bs[k..], px);
            Barrage(bs, k, px, hit, sparks) == Salvo(bs[..k] + v.shots, hit || v.playerHit, sparks + v.sparks)
  {
    var q := RemoveAt(bs, k);
    assert !Reaches(bs[k], px);
    assert Barrage(bs, k, px, hit, sparks) == Barrage(q, k + 1, px, hit, sparks);
    if k + 1 < |bs| {
      BarrageIsOnslaught(q, k + 1, px, hit, sparks);
      SpliceSplit(bs, k);
      var v := Onslaught(bs[k + 2..], px);
      var rest := bs[k..];
      assert rest[0] == bs[k] && rest[1] == bs[k + 1] && rest[2..] == bs[k + 2..];
      OnslaughtDrops(rest, px);
      assert Onslaught(rest, px) == Salvo([bs[k + 1]] + v.shots, v.playerHit, v.sparks);
      Regroup(bs[..k], [bs[k + 1]], v.shots);
    } else {
      assert q == bs[..k] && bs[k..] == [bs[k]];
    }
  }

  /** The step of `BarrageIsOnslaught` where the projectile at `k` strikes
      the player and is spliced. */
  lemma {:induction false} StruckOnslaught(bs: seq<BossShot>, k: nat, px: real, hit: bool, sparks: nat)
    requires k < |bs| && Reaches(bs[k], px)
    decreases |bs| - k, 0
    ensures var v := Onslaught(bs[k..], px);
            Barrage(bs, k, px, hit, sparks) == Salvo(bs[..k] + v.shots, hit || v.playerHit, sparks + v.sparks)
  {
    var q := RemoveAt(bs, k);
    assert Barrage(bs, k, px, hit, sparks) == Barrage(q, k + 1, px, true, sparks + Burst);
    if k + 1 < |bs| {
      BarrageIsOnslaught(q, k + 1, px, true, sparks + Burst);
      SpliceSplit(bs, k);
      var v := Onslaught(bs[k + 2..], px);
      OnslaughtDrops(bs[k..], px);
      assert bs[k..][2..] == bs[k + 2..];
      assert Onslaught(bs[k..], px) == Salvo([bs[k + 1]] + v.shots, true, v.sparks + Burst);
      Regroup(bs[..k], [bs[k + 1]], v.shots);
    } else {
      assert q == bs[..k] && bs[k..] == [bs[k]];
    }
  }

  /** The step of `BarrageIsOnslaught` where the projectile at `k` travels on. */
  lemma {:induction false} MovedOnslaught(bs: seq<BossShot>, k: nat, px: real, hit: bool, sparks: nat)
    requires k < |bs| && !OffScreen(Travel(bs[k])) && !Reaches(bs[k], px)
    decreases |bs| - k, 0
    ensures var v := Onslaught(bs[k..], px);
            Barrage(bs, k, px, hit, sparks) == Salvo(bs[..k] + v.shots, hit || v.playerHit, sparks + v.sparks)
  {
    var q := bs[k := Travel(bs[k])];
    BarrageStep(bs, k, px, hit, sparks);
    assert Barrage(bs, k, px, hit, sparks) == Barrage(q, k + 1, px, hit, sparks);
    BarrageIsOnslaught(q, k + 1, px, hit, sparks);
    UpdateSplit(bs, k, Travel(bs[k]));
    OnslaughtMoves(bs[k..], px);
    assert bs[k..][1..] == bs[k + 1..];
    Regroup(bs[..k], [Travel(bs[k])], Onslaught(bs[k + 1..], px).shots);
  }

  lemma OnslaughtDrops(rest: seq<BossShot>, px: real)
    requires |rest| >= 2 && (OffScreen(Travel(rest[0])) || Reaches(rest[0], px))
    ensures var v := Onslaught(rest[2..], px);
            Onslaught(rest, px) ==
              if Reaches(rest[0], px) then Salvo([rest[1]] + v.shots, true, v.sparks + Burst)
              else Salvo([rest[1]] + v.shots, v.playerHit, v.sparks)
  {
  }

  lemma OnslaughtMoves(rest: seq<BossShot>, px: real)
    requires |rest| >= 1 && !OffScreen(Travel(rest[0])) && !Reaches(rest[0], px)
    ensures Onslaught(rest, px) == Carried(Travel(rest[0]), Onslaught(rest[1..], px))
  {
  }

  /** A boss projectile that reaches the player at the first visited slot
      sets the hit, and a hit already reported stays reported. */
  lemma BarrageReachHits(bs: seq<BossShot>, k: nat, px: real, hit: bool, sparks: nat)
    requires k <= |bs|
    ensures hit ==> Barrage(bs, k, px, hit, sparks).playerHit
    ensures k < |bs| && Reaches(bs[k], px) ==>
              Barrage(bs, k, px, hit, sparks).playerHit && Barrage(bs, k, px, hit, sparks).sparks >= sparks + Burst
  {
    BarrageIsOnslaught(bs, k, px, hit, sparks);
    if k < |bs| && Reaches(bs[k], px) {
      var rest := bs[k..];
      assert rest[0] == bs[k];
      assert Onslaught(rest, px).playerHit && Onslaught(rest, px).sparks >= Burst;
    }
  }

  /** What the pass of player projectiles against the boss yields. `boss` is
      `None` once the boss is destroyed. */
  datatype Duel = Duel(shots: seq<Shot>, boss: Option<Boss>, sparks: nat)

  /** `projectiles.forEach` against the boss from index `j` on: each hit
      splices the projectile, makes a burst and takes 10 health. At 0 or less
      the boss is set to null; the next read of the boss's position then
      throws, so the pass (and the frame) ends there. */
  function Pummel(shots: seq<Shot>, b: Boss, j: nat, sparks: nat): (r: Duel)
    decreases |shots| - j
    ensures |r.shots| <= |shots|
  {
    if j >= |shots| then Duel(shots, Some(b), sparks)
    else if Within(shots[j].x, shots[j].y, BossBox(b)) then
      var hurt := b.(health := b.health - BossDamage);
      if hurt.health <= 0 then Duel(RemoveAt(shots, j), None, sparks + Burst)
      else Pummel(RemoveAt(shots, j), hurt, j + 1, sparks + Burst)
    else Pummel(shots, b, j + 1, sparks)
  }

  /** Each projectile spent takes 10 health and makes a burst; a boss that
      survives keeps its place with its health reduced by 10 per hit; a
      destroyed boss fell on the first hit that brought it to 0 or below. */
  lemma {:induction false} PummelAccounts(shots: seq<Shot>, b: Boss, j: nat, sparks: nat)
    requires b.health > 0
    decreases |shots| - j
    ensures var r := Pummel(shots, b, j, sparks);
            var hits := |shots| - |r.shots|;
            && r.sparks == sparks + Burst * hits
            && (r.boss.Some? ==> r.boss.value == b.(health := b.health - BossDamage * hits) && r.boss.value.health > 0)
            && (r.boss.None? ==> hits >= 1 && b.health - BossDamage * hits <= 0 < b.health - BossDamage * (hits - 1))
  {
    if j < |shots| {
      if Within(shots[j].x, shots[j].y, BossBox(b)) {
        var hurt := b.(health := b.health - BossDamage);
        if hurt.health > 0 {
          PummelAccounts(RemoveAt(shots, j), hurt, j + 1, sparks + Burst);
        }
      } else {
        PummelAccounts(shots, b, j + 1, sparks);
      }
    }
  }

  /** A boss at full health falls to exactly ten hits. */
  lemma FullBossTakesTenHits(shots: seq<Shot>, b: Boss, sparks: nat)
    requires b.health == BossStartHealth
    ensures var r := Pummel(shots, b, 0, sparks);
            r.boss.None? ==> |shots| - |r.shots| == 10
  {
    PummelAccounts(shots, b, 0, sparks);
  }

  // ---------------------------------------------------------------------------
  // One frame of `render`, level progress and level completion

  /** The state one frame reads and writes. The first six fields are the
      component's React state (`gameState`, `score`, `level`, `isLevelUp`,
      `isBossLevel`, `levelProgress`, `None` standing for NaN); the rest are
      the locals of one run of the effect, whose closure captured `runLevel`.
      `live` turns false once the frame loop has died on an exception. */
  datatype World = World(
    state: GameState, score: int, level: nat, levelUp: bool, bossLevel: bool, progress: Option<int>,
    runLevel: nat, live: bool, playerX: real, touchX: real,
    shots: seq<Shot>, enemies: seq<Enemy>, boss: Option<Boss>, bossShots: seq<BossShot>, sparks: nat)

  predicate IsBossLevel(level: nat)
  {
    level % 5 == 0
  }

  /** `100 - progress` as the component computes it: 0 once the wave is
      cleared or while enemies remain on an ordinary level, the boss's lost
      health on a boss level, and NaN (`None`) where the formula divides by a
      missing boss's health or by zero enemies. */
  function Progress(level: nat, enemies: seq<Enemy>, boss: Option<Boss>): Option<int>
  {
    if |enemies| == 0 && boss.None? then Some(0)
    else if IsBossLevel(level) then (if boss.Some? then Some(100 - boss.value.health) else None)
    else if |enemies| > 0 then Some(0)
    else None
  }

  /** On an ordinary level the progress bar stays at 0 while any enemy is left,
      however many have been destroyed. */
  lemma WaveProgressIsZero(level: nat, enemies: seq<Enemy>, boss: Option<Boss>)
    requires !IsBossLevel(level)
    ensures |enemies| > 0 ==> Progress(level, enemies, boss) == Some(0)
    ensures |enemies| == 0 && boss.Some? ==> Progress(level, enemies, boss) == None
  {
  }

  /** On a boss level the bar shows 10 per hit taken, between 0 and 90 while
      the boss lives; with no boss it is NaN until the enemies are gone. */
  lemma BossProgressCountsHits(level: nat, enemies: seq<Enemy>, boss: Option<Boss>)
    requires IsBossLevel(level)
    ensures boss.Some? && 0 < boss.value.health <= BossStartHealth && boss.value.health % 10 == 0 ==>
              Progress(level, enemies, boss) == Some(BossStartHealth - boss.value.health) &&
              0 <= BossStartHealth - boss.value.health <= 90 &&
              (BossStartHealth - boss.value.health) % 10 == 0
    ensures boss.None? ==> Progress(level, enemies, boss) == (if |enemies| == 0 then Some(0) else None)
  {
  }

  /** `setLevelProgress`. */
  function Charted(w: World): World
  {
    w.(progress := Progress(w.runLevel, w.enemies, w.boss))
  }

  /** `setLevel(prev => prev + 1)` and `setIsLevelUp(true)`. */
  function Promoted(w: World): World
  {
    w.(level := w.level + 1, levelUp := true)
  }

  /** `createBoss`. */
  function Summoned(w: World): World
  {
    w.(bossLevel := true, boss := Some(NewBoss))
  }

  /** `spawnEnemies` pushes the grid of the closure's level. */
  function Spawned(w: World, roll: (nat, nat) -> Roll): World
  {
    w.(enemies := w.enemies + Grid(w.runLevel, roll))
  }

  /** No enemy and no boss is left. */
  predicate Cleared(w: World)
  {
    |w.enemies| == 0 && w.boss.None?
  }

  /** The end of a frame: the progress bar, then, once no enemy and no boss is
      left, the level up: the next level in React state, the level-up overlay,
      and either a boss (when the closure's level is a multiple of 5) or a new
      grid built for the closure's level. */
  function Finish(w: World, roll: (nat, nat) -> Roll): World
  {
    var c := Charted(w);
    if Cleared(c) then
      if IsBossLevel(c.runLevel) then Summoned(Promoted(c)) else Spawned(Promoted(c), roll)
    else c
  }

  /** The player's projectiles rise. */
  function Climbed(w: World): World
  {
    w.(shots := Rise(w.shots, 0))
  }

  /** The enemies move and meet the player's projectiles. */
  function Swept(w: World, m: Motion): World
  {
    var a := Sweep(Arena(w.enemies, w.shots, w.score, w.sparks), m, 0);
    w.(enemies := a.enemies, shots := a.shots, score := a.score, sparks := a.sparks)
  }

  /** The first part of a frame: the projectiles rise, then the enemies move
      and meet them. */
  function Advance(w: World, m: Motion): World
  {
    Swept(Climbed(w), m)
  }

  /** The boss `b` drifts and, when the cadence allows, fires a volley from
      its new place. */
  function Aimed(w: World, b: Boss, f: FrameInput): World
  {
    var b1 := b.(x := b.x + f.drift);
    w.(boss := Some(b1), bossShots := if f.fire then w.bossShots + Fire(b1, f.volley) else w.bossShots)
  }

  /** The boss's projectiles travel; one that reaches the player ends the game. */
  function Shelled(w: World): World
  {
    var salvo := Barrage(w.bossShots, 0, w.playerX, false, w.sparks);
    w.(state := if salvo.playerHit then Over else w.state, bossShots := salvo.shots, sparks := salvo.sparks)
  }

  /** The player's projectiles damage the boss. */
  function Pounded(w: World): World
  {
    match w.boss
    case None => w
    case Some(b) =>
      var duel := Pummel(w.shots, b, 0, w.sparks);
      w.(shots := duel.shots, boss := duel.boss, sparks := duel.sparks)
  }

  /** A destroyed boss: 1000 points, `setIsBossLevel(false)`, and the loop
      dies on the exception that follows. */
  function Defeated(w: World): World
  {
    w.(score := w.score + BossBonus, bossLevel := false, live := false)
  }

  /** The boss part of a frame, for the boss `b` present at its start. */
  function Confront(w: World, b: Boss, f: FrameInput): World
  {
    var p := Pounded(Shelled(Aimed(w, b, f)));
    if p.boss.None? then Defeated(p) else p
  }

  /** One call of `render`. Nothing happens unless the game is playing and
      the loop is still alive; a destroyed boss ends the frame before the
      progress and level checks. */
  function Frame(w: World, f: FrameInput): World
  {
    if w.state != Playing || !w.live then w
    else if w.boss.None? then Finish(Advance(w, f.motion), f.roll)
    else
      var c := Confront(Advance(w, f.motion), w.boss.value, f);
      if c.live then Finish(c, f.roll) else c
  }

  /** The player stays in its lane, enemies stay on the field, and a living
      boss has between 10 and 100 health in steps of 10. */
  predicate Sound(w: World)
  {
    && 0.0 <= w.playerX <= Width - PlayerSize
    && (forall e :: e in w.enemies ==> InField(e))
    && (w.boss.Some? ==> 0 < w.boss.value.health <= BossStartHealth && w.boss.value.health % 10 == 0)
  }

  lemma FinishKeepsSound(w: World, roll: (nat, nat) -> Roll)
    requires Sound(w)
    ensures Sound(Finish(w, roll))
  {
    GridInField(w.runLevel, roll);
    if |w.enemies| == 0 {
      assert w.enemies + Grid(w.runLevel, roll) == Grid(w.runLevel, roll);
    }
  }

  lemma AdvanceAccounts(w: World, m: Motion)
    ensures Advance(w, m).score >= w.score
    ensures Sound(w) ==> Sound(Advance(w, m))
    ensures Advance(w, m).boss == w.boss && Advance(w, m).live == w.live && Advance(w, m).state == w.state
  {
    SweepAccounts(Arena(w.enemies, Rise(w.shots, 0), w.score, w.sparks), m, 0);
  }

  lemma ConfrontAccounts(w: World, b: Boss, f: FrameInput)
    requires 0 < b.health <= BossStartHealth && b.health % 10 == 0
    ensures Confront(w, b, f).score >= w.score
    ensures Sound(w) ==> Sound(Confront(w, b, f))
  {
    var s := Shelled(Aimed(w, b, f));
    var b1 := b.(x := b.x + f.drift);
    var duel := Pummel(s.shots, b1, 0, s.sparks);
    PummelAccounts(s.shots, b1, 0, s.sparks);
    assert Pounded(s) == s.(shots := duel.shots, boss := duel.boss, sparks := duel.sparks);
    if duel.boss.Some? {
      var hits := |s.shots| - |duel.shots|;
      assert duel.boss.value.health == b.health - 10 * hits;
      assert (b.health - 10 * hits) % 10 == 0;
    }
  }

  lemma FrameKeepsSound(w: World, f: FrameInput)
    requires Sound(w)
    ensures Sound(Frame(w, f))
  {
    if w.state == Playing && w.live {
      var v := Advance(w, f.motion);
      AdvanceAccounts(w, f.motion);
      if w.boss.None? {
        FinishKeepsSound(v, f.roll);
      } else {
        ConfrontAccounts(v, w.boss.value, f);
        FinishKeepsSound(Confront(v, w.boss.value, f), f.roll);
      }
    }
  }

  /** In a sound game frames never take points away. */
  lemma FrameNeverLosesScore(w: World, f: FrameInput)
    requires Sound(w)
    ensures Frame(w, f).score >= w.score
  {
    if w.state == Playing && w.live {
      var v := Advance(w, f.motion);
      AdvanceAccounts(w, f.motion);
      if w.boss.Some? {
        ConfrontAccounts(v, w.boss.value, f);
      }
    }
  }

  /** The boss's first projectile reaching the player ends the game, and the
      game is over after the boss's projectiles travel exactly when it was
      over before or a visited projectile struck the player. */
  lemma ShelledEndsGame(w: World)
    ensures Shelled(w).state == Over <==> w.state == Over || Onslaught(w.bossShots, w.playerX).playerHit
    ensures |w.bossShots| > 0 && Reaches(w.bossShots[0], w.playerX) ==> Shelled(w).state == Over
  {
    BarrageIsOnslaught(w.bossShots, 0, w.playerX, false, w.sparks);
    assert w.bossShots[0..] == w.bossShots;
    BarrageReachHits(w.bossShots, 0, w.playerX, false, w.sparks);
  }

  /** A running frame with a boss, whose first boss projectile reaches the
      player, ends the game. */
  lemma FrameEndsGame(w: World, f: FrameInput)
    requires w.state == Playing && w.live && w.boss.Some?
    requires |w.bossShots| > 0 && Reaches(w.bossShots[0], w.playerX)
    ensures Frame(w, f).state == Over
  {
    var v := Advance(w, f.motion);
    assert v.bossShots == w.bossShots && v.playerX == w.playerX && v.state == w.state;
    var g := Aimed(v, w.boss.value, f);
    assert g.bossShots[0] == w.bossShots[0] && g.playerX == w.playerX;
    ShelledEndsGame(g);
    var c := Confront(v, w.boss.value, f);
    assert c.state == Shelled(g).state;
    assert Frame(w, f) == if c.live then Finish(c, f.roll) else c;
  }

  /** A frame that is not running changes nothing. */
  lemma IdleFrame(w: World, f: FrameInput)
    requires w.state != Playing || !w.live
    ensures Frame(w, f) == w
  {
  }

  /** The level advances by one exactly when a running frame starts without
      a boss and its enemy pass leaves no enemy; then the overlay shows and
      the next wave (or the boss) is in place. A frame that starts with a
      boss never raises the level: it ends with the boss alive, or with the
      loop dead after the boss falls. */
  lemma LevelUpOnClear(w: World, f: FrameInput)
    ensures var n := Frame(w, f);
            && (n.level == w.level || n.level == w.level + 1)
            && (n.level == w.level + 1 <==>
                  w.state == Playing && w.live && w.boss.None? && Cleared(Advance(w, f.motion)))
            && (n.level == w.level + 1 ==>
                  && n.live && n.levelUp
                  && (IsBossLevel(w.runLevel) ==> n.boss == Some(NewBoss) && n.bossLevel)
                  && (!IsBossLevel(w.runLevel) ==> n.enemies == Grid(w.runLevel, f.roll)))
  {
    if w.state == Playing && w.live {
      var a := Advance(w, f.motion);
      assert a.level == w.level && a.runLevel == w.runLevel && a.live && a.boss == w.boss;
      if w.boss.None? {
        FinishLevels(a, f.roll);
      } else {
        var c := Confront(a, w.boss.value, f);
        assert c.level == w.level && c.runLevel == w.runLevel;
        assert c.live ==> c.boss.Some?;
        if c.live {
          FinishLevels(c, f.roll);
        }
      }
    }
  }

  /** `Finish` raises the level exactly when the field is clear, by one, and
      then puts the next wave or the boss in place. */
  lemma FinishLevels(w: World, roll: (nat, nat) -> Roll)
    ensures var n := Finish(w, roll);
            && (n.level == w.level || n.level == w.level + 1)
            && (n.level == w.level + 1 <==> Cleared(w))
            && (n.level == w.level + 1 ==>
                  && n.live == w.live && n.levelUp
                  && (IsBossLevel(w.runLevel) ==> n.boss == Some(NewBoss) && n.bossLevel)
                  && (!IsBossLevel(w.runLevel) ==> n.enemies == Grid(w.runLevel, roll)))
  {
    var c := Charted(w);
    if Cleared(c) && !IsBossLevel(c.runLevel) {
      assert c.enemies + Grid(w.runLevel, roll) == Grid(w.runLevel, roll);
    }
  }

  // ---------------------------------------------------------------------------
  // The effect and the event handlers

  /** The locals of a new run of the effect: the closure captures the
      current level, the player's left edge is at half the canvas width, and
      every list is empty. */
  function Fresh(w: World): World
  {
    w.(runLevel := w.level, live := true, playerX := Width / 2.0, touchX := 0.0,
       shots := [], enemies := [], boss := None, bossShots := [], sparks := 0)
  }

  /** A run of the effect, which React starts on mount and again after every
      change of `level` or `gameState`: all locals start afresh and a grid for
      the captured level is spawned. */
  function Mount(w: World, roll: (nat, nat) -> Roll): World
  {
    Spawned(Fresh(w), roll)
  }

  /** Every run of the effect starts sound, whatever state it inherits. */
  lemma MountIsSound(w: World, roll: (nat, nat) -> Roll)
    ensures Sound(Mount(w, roll))
    ensures Mount(w, roll).runLevel == w.level && Mount(w, roll).boss == None
    ensures |Mount(w, roll).enemies| == Rows(w.level) * Cols(w.level)
  {
    GridInField(w.level, roll);
    GridSize(w.level, roll);
    assert [] + Grid(w.level, roll) == Grid(w.level, roll);
  }

  /** The component's first state, mounted. */
  function Start(roll: (nat, nat) -> Roll): World
  {
    Mount(World(Playing, 0, 1, false, false, Some(0), 1, true, 0.0, 0.0, [], [], None, [], 0), roll)
  }

  /** The level up re-runs the effect for the new level, which throws away
      the boss the old run created: the boss never reaches the new run. */
  lemma RemountDropsBoss(w: World, f: FrameInput, roll: (nat, nat) -> Roll)
    requires Frame(w, f).level == w.level + 1
    ensures Mount(Frame(w, f), roll).boss == None
    ensures Mount(Frame(w, f), roll).enemies == Grid(w.level + 1, roll)
    ensures Mount(Frame(w, f), roll).runLevel == w.level + 1
  {
    assert [] + Grid(w.level + 1, roll) == Grid(w.level + 1, roll);
  }

  function Clamp(x: real): (r: real)
    ensures 0.0 <= r <= Width - PlayerSize
    ensures 0.0 <= x <= Width - PlayerSize ==> r == x
  {
    if x < 0.0 then 0.0 else if x > Width - PlayerSize then Width - PlayerSize else x
  }

  function Launch(w: World): Shot
  {
    Shot(w.playerX + PlayerSize / 2.0, PlayerY)
  }

  /** `handleKeyDown`: ignored unless playing; arrows step 5 and stop at the
      edges, space fires from the player's centre, "p" pauses. */
  function KeyStep(w: World, key: string): World
  {
    if w.state != Playing then w
    else if key == "ArrowLeft" then w.(playerX := if w.playerX - PlayerSpeed < 0.0 then 0.0 else w.playerX - PlayerSpeed)
    else if key == "ArrowRight" then
      w.(playerX := if w.playerX + PlayerSpeed + PlayerSize > Width then Width - PlayerSize else w.playerX + PlayerSpeed)
    else if key == " " then w.(shots := w.shots + [Launch(w)])
    else if key == "p" then w.(state := Paused)
    else w
  }

  /** Keys only move the player inside the lane, by at most one step, only
      add one projectile, and can only pause; a key changes nothing unless the
      game is playing. An arrow moves the player by `speed` and stops it at
      the edge: the two edge tests of the handler are the lane clamp. */
  lemma KeyStepMeaning(w: World, key: string)
    requires Sound(w)
    ensures var n := KeyStep(w, key);
            && Sound(n)
            && (w.state != Playing ==> n == w)
            && (n.state == w.state || (w.state == Playing && n.state == Paused && key == "p"))
            && -PlayerSpeed <= n.playerX - w.playerX <= PlayerSpeed
            && (key == "ArrowLeft" ==> n.playerX <= w.playerX)
            && (key == "ArrowRight" ==> n.playerX >= w.playerX)
            && (n.shots == w.shots || (key == " " && n.shots == w.shots + [Launch(w)]))
            && n.enemies == w.enemies && n.boss == w.boss && n.score == w.score
            && (w.state == Playing && key == "ArrowLeft" ==> n == w.(playerX := Clamp(w.playerX - PlayerSpeed)))
            && (w.state == Playing && key == "ArrowRight" ==> n == w.(playerX := Clamp(w.playerX + PlayerSpeed)))
  {
  }

  function TouchStartStep(w: World, x: real): World
  {
    w.(touchX := x)
  }

  /** `handleTouchMove`: a drag of more than 10 from the last anchor moves
      the player one step that way and re-anchors. */
  function TouchMoveStep(w: World, x: real): World
  {
    var delta := x - w.touchX;
    if delta > 10.0 || delta < -10.0 then
      w.(playerX := Clamp(w.playerX + (if delta > 0.0 then PlayerSpeed else -PlayerSpeed)), touchX := x)
    else w
  }

  /** A drag of more than 10 moves the player exactly as the arrow key of
      its direction does while playing, and re-anchors; a shorter drag
      changes nothing. Unlike the keys, drags work in any game state. */
  lemma TouchMoveMeaning(w: World, x: real)
    requires Sound(w)
    ensures var n := TouchMoveStep(w, x);
            && Sound(n)
            && -PlayerSpeed <= n.playerX - w.playerX <= PlayerSpeed
            && (x - w.touchX > 10.0 ==> n.playerX >= w.playerX && n.touchX == x)
            && (x - w.touchX < -10.0 ==> n.playerX <= w.playerX && n.touchX == x)
            && (-10.0 <= x - w.touchX <= 10.0 ==> n == w)
            && (x - w.touchX > 10.0 ==> n == KeyStep(w.(state := Playing), "ArrowRight").(state := w.state, touchX := x))
            && (x - w.touchX < -10.0 ==> n == KeyStep(w.(state := Playing), "ArrowLeft").(state := w.state, touchX := x))
  {
  }

  /** `handleTouchEnd` fires whatever the game state. */
  function TouchEndStep(w: World): (r: World)
    ensures r.shots == w.shots + [Launch(w)]
    ensures r.(shots := w.shots) == w
  {
    w.(shots := w.shots + [Launch(w)])
  }

  /** The overlay's `onResume`. */
  function ResumeStep(w: World): (r: World)
    ensures r.state == Playing && r.(state := w.state) == w
  {
    w.(state := Playing)
  }

  /** The 2 s timer after a level up hides the overlay. */
  function LevelUpEnds(w: World): (r: World)
    ensures !r.levelUp && r.(levelUp := w.levelUp) == w
  {
    w.(levelUp := false)
  }
}
