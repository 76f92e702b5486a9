/** The discrete rules of the older canvas shooter in frontend/src/Game.tsx:
    the wave `spawnEnemies` builds, enemy motion with its edge checks, the
    rising projectiles, the rectangle-overlap collisions with their +10, the
    `levelTransition` gate, `levelUp` with its deferred completion, held-key
    player movement and the Space key.

    Everything here is a function of one snapshot (`Stage`) and the canvas
    size; the class `ArcadeGame.Game` holds the same state in fields and runs
    the loops. `Math.random`, `Math.cos`, `Math.sin` and the dive heading
    (which needs `Math.sqrt`) are inputs. Coordinates are exact reals. */
module ArcadeRules {
  import opened Common
  import opened Geometry

  const PlayerWidth: real := 50.0
  const PlayerHeight: real := 20.0
  const PlayerStep: real := 5.0
  const AlienWidth: real := 40.0
  const AlienHeight: real := 20.0
  const BoltWidth: real := 5.0
  const BoltHeight: real := 10.0
  const BoltRise: real := 5.0
  /** Horizontal room per enemy in a wave, and the pixels an enemy is pushed
      back towards the canvas per frame. */
  const Slot: nat := 60
  const Nudge: real := 2.0
  const HitPoints: nat := 10

  /** `canvas.width` and `canvas.height` are whole pixels. */
  datatype Canvas = Canvas(width: nat, height: nat)
  datatype Alien = Alien(x: real, y: real, vx: real, vy: real, pattern: real, angle: real)
  datatype Bolt = Bolt(x: real, y: real)
  /** The `Math.random()` draws of one spawned enemy: its motion pattern, its
      entry side and, for a side entry, its depth. */
  datatype Draw = Draw(pattern: real, side: real, depth: real)
  /** What `moveEnemies` reads from the host: `Math.cos`, `Math.sin`, whether
      the dive draw `Math.random() < 0.01` succeeds for the enemy at a given
      index, and the dive heading: for the offset (dx, dy) to the player, the
      velocity (dx / d * 5, dy / d * 5) with d = `Math.sqrt(dx * dx + dy * dy)`. */
  datatype Motion = Motion(cos: real -> real, sin: real -> real, dive: nat -> bool, heading: (real, real) -> (real, real))
  /** The closure's state: `player.x`, `enemies`, `projectiles`, the held
      keys, `score`, `level` and `levelTransition`. */
  datatype Stage = Stage(playerX: real, enemies: seq<Alien>, projectiles: seq<Bolt>, held: set<string>,
                         score: nat, level: nat, transition: bool)

  function PlayerY(c: Canvas): real
  {
    c.height as real - 50.0
  }

  /** `resetPlayer` and the initial `player.x`: centred on the canvas. */
  function Centre(c: Canvas): real
  {
    c.width as real / 2.0 - PlayerWidth / 2.0
  }

  function Hull(b: Bolt): Rect
  {
    Rect(b.x, b.y, BoltWidth, BoltHeight)
  }

  function Body(a: Alien): Rect
  {
    Rect(a.x, a.y, AlienWidth, AlienHeight)
  }

  // ---------------------------------------------------------------------------
  // `spawnEnemies`

  function PerRow(c: Canvas): nat
  {
    c.width / Slot
  }

  function WaveRows(level: nat): (r: nat)
    ensures 3 <= r <= 6
  {
    Min(3 + level, 6)
  }

  function Speed(level: nat): (v: real)
    ensures v >= 1.0
  {
    1.0 + level as real * 0.5
  }

  /** Enemy `i` of a wave: from the top in its column above the canvas, or
      from beside the left or right edge at a random depth in the upper half. */
  function Recruit(c: Canvas, level: nat, i: nat, d: Draw): Alien
    requires PerRow(c) > 0
  {
    var depth := d.depth * (c.height as real / 2.0);
    var x := if d.side < 0.33 then ((i % PerRow(c)) * Slot + 10) as real
             else if d.side < 0.66 then -40.0
             else c.width as real + 40.0;
    var y := if d.side < 0.33 then -50.0 else depth;
    Alien(x, y, if d.side < 0.5 then Speed(level) else -Speed(level), 2.0, d.pattern, 0.0)
  }

  /** `enemies = Array.from(...)`: `rows * maxEnemiesPerRow` fresh enemies,
      enemy `i` drawn with `draw(i)`. */
  function Wave(c: Canvas, level: nat, draw: nat -> Draw): (r: seq<Alien>)
    ensures |r| == WaveRows(level) * PerRow(c)
  {
    var n := WaveRows(level) * PerRow(c);
    seq(n, i requires 0 <= i < n => Recruit(c, level, i, draw(i)))
  }

  /** Every enemy of a wave falls at 2 and moves sideways at the level's
      speed, to the right exactly when its side draw is below 0.5; one
      entering from the top sits, all 40 pixels of it, inside the canvas
      width, in column `i % maxEnemiesPerRow`. */
  lemma WaveLayout(c: Canvas, level: nat, draw: nat -> Draw, i: nat)
    requires i < |Wave(c, level, draw)|
    ensures var e := Wave(c, level, draw)[i];
            && e.vy == 2.0 && e.angle == 0.0 && e.pattern == draw(i).pattern
            && (e.vx == Speed(level) || e.vx == -Speed(level))
            && (e.vx > 0.0 <==> draw(i).side < 0.5)
            && (draw(i).side < 0.33 ==>
                  && e.y == -50.0 && e.x == ((i % PerRow(c)) * Slot + 10) as real
                  && 10.0 <= e.x && e.x + AlienWidth <= c.width as real - 10.0)
  {
    var n := PerRow(c);
    assert n > 0;
    assert Wave(c, level, draw)[i] == Recruit(c, level, i, draw(i));
    var col := i % n;
    assert col * Slot + 60 <= n * Slot by {
      assert col + 1 <= n;
      ScaleSlot(col + 1, n);
    }
    assert n * Slot <= c.width;
  }

  lemma ScaleSlot(a: nat, b: nat)
    requires a <= b
    ensures a * Slot <= b * Slot
  {
  }

  // ---------------------------------------------------------------------------
  // `moveEnemies`

  /** A linear enemy that has reached a side edge, or the top or the middle
      of the canvas, turns back on that axis. */
  function Bounced(e: Alien, c: Canvas): Alien
  {
    var vx := if e.x <= 0.0 || e.x + AlienWidth >= c.width as real then -e.vx else e.vx;
    var vy := if e.y <= 0.0 || e.y + AlienHeight >= c.height as real / 2.0 then -e.vy else e.vy;
    e.(vx := vx, vy := vy)
  }

  /** The four checks that push an enemy back towards the canvas, in order. */
  function Nudged(e: Alien, c: Canvas): Alien
  {
    var x1 := if e.x < 0.0 then e.x + Nudge else e.x;
    var x2 := if x1 > c.width as real - AlienWidth then x1 - Nudge else x1;
    var y1 := if e.y < 0.0 then e.y + Nudge else e.y;
    var y2 := if y1 > c.height as real - AlienHeight then y1 - Nudge else y1;
    e.(x := x2, y := y2)
  }

  /** One enemy visited by `moveEnemies` at index `i`, the player at `px`:
      circular motion below pattern 0.3, a possible dive below 0.6, a
      straight step with bounces otherwise; then the push back. */
  function Steered(e: Alien, i: nat, px: real, c: Canvas, m: Motion): Alien
  {
    var moved :=
      if e.pattern < 0.3 then
        e.(x := e.x + m.cos(e.angle) * e.vx, y := e.y + m.sin(e.angle) * e.vy, angle := e.angle + 0.05)
      else if e.pattern < 0.6 then
        if m.dive(i) then
          var v := m.heading(px + PlayerWidth / 2.0 - (e.x + AlienWidth / 2.0),
                             PlayerY(c) + PlayerHeight / 2.0 - (e.y + AlienHeight / 2.0));
          e.(vx := v.0, vy := v.1)
        else e
      else Bounced(e.(x := e.x + e.vx, y := e.y + e.vy), c);
    Nudged(moved, c)
  }

  /** `enemies.forEach(...)`: every enemy steps in place; none is removed. */
  function March(es: seq<Alien>, px: real, c: Canvas, m: Motion): (r: seq<Alien>)
    ensures |r| == |es|
  {
    seq(|es|, i requires 0 <= i < |es| => Steered(es[i], i, px, c, m))
  }

  /** Moving keeps every enemy's motion pattern: an enemy never changes kind. */
  lemma MarchKeepsPatterns(es: seq<Alien>, px: real, c: Canvas, m: Motion)
    ensures forall i :: 0 <= i < |es| ==> March(es, px, c, m)[i].pattern == es[i].pattern
  {
  }

  /** A linear enemy takes its velocity as one step, and negates the horizontal
      component exactly when the step ends on or past a side edge, the
      vertical one exactly when it ends at or above the top or on or below the
      middle of the canvas. */
  lemma LinearBounce(e: Alien, i: nat, px: real, c: Canvas, m: Motion)
    requires e.pattern >= 0.6
    ensures var r := Steered(e, i, px, c, m);
            var x, y := e.x + e.vx, e.y + e.vy;
            && r.vx == (if x <= 0.0 || x + AlienWidth >= c.width as real then -e.vx else e.vx)
            && r.vy == (if y <= 0.0 || y + AlienHeight >= c.height as real / 2.0 then -e.vy else e.vy)
            && -Nudge <= r.x - x <= Nudge && -Nudge <= r.y - y <= Nudge
  {
  }

  /** A diving enemy never moves by its own velocity: a dive only sets a new
      velocity, so its position changes by the push back alone, and without a
      dive nothing but the push back happens to it. */
  lemma DiverOnlyTurns(e: Alien, i: nat, px: real, c: Canvas, m: Motion)
    requires 0.3 <= e.pattern < 0.6
    ensures var r := Steered(e, i, px, c, m);
            && r.x == Nudged(e, c).x && r.y == Nudged(e, c).y
            && r.pattern == e.pattern && r.angle == e.angle
            && (!m.dive(i) ==> r == Nudged(e, c))
  {
  }

  /** The push back leaves an enemy inside the canvas where it is, and moves
      one outside it by 2 towards the canvas on each axis it is out on. */
  lemma NudgeTowardsCanvas(e: Alien, c: Canvas)
    requires c.width as real >= AlienWidth + Nudge && c.height as real >= AlienHeight + Nudge
    ensures var r := Nudged(e, c);
            && (0.0 <= e.x <= c.width as real - AlienWidth ==> r.x == e.x)
            && (e.x < 0.0 ==> r.x == e.x + Nudge)
            && (e.x > c.width as real - AlienWidth ==> r.x == e.x - Nudge)
            && (0.0 <= e.y <= c.height as real - AlienHeight ==> r.y == e.y)
            && (e.y < 0.0 ==> r.y == e.y + Nudge)
            && (e.y > c.height as real - AlienHeight ==> r.y == e.y - Nudge)
            && r.vx == e.vx && r.vy == e.vy && r.pattern == e.pattern
  {
  }

  // ---------------------------------------------------------------------------
  // `moveProjectiles`

  function Up(b: Bolt): Bolt
  {
    b.(y := b.y - BoltRise)
  }

  /** `projectiles.forEach` from index `k` on: each projectile rises 5 and is
      spliced once it is wholly above the canvas. The splice shifts the next
      projectile into the visited slot, so that one is skipped this frame. */
  function Climb(ps: seq<Bolt>, k: nat): (r: seq<Bolt>)
    decreases |ps| - k
    ensures |r| <= |ps|
  {
    if k >= |ps| then ps
    else
      var b := Up(ps[k]);
      if b.y + BoltHeight < 0.0 then Climb(RemoveAt(ps, k), k + 1)
      else Climb(ps[k := b], k + 1)
  }

  /** No projectile lies wholly above the canvas. */
  ghost predicate Aloft(ps: seq<Bolt>)
  {
    forall b :: b in ps ==> b.y + BoltHeight >= 0.0
  }

  /** The pass never leaves a projectile wholly above the canvas. */
  lemma {:induction false} ClimbKeepsAloft(ps: seq<Bolt>, k: nat)
    requires Aloft(ps)
    decreases |ps| - k
    ensures Aloft(Climb(ps, k))
  {
    if k < |ps| {
      var b := Up(ps[k]);
      if b.y + BoltHeight < 0.0 {
        RemoveAtSubset(ps, k);
        ClimbKeepsAloft(RemoveAt(ps, k), k + 1);
      } else {
        forall x | x in ps[k := b] ensures x.y + BoltHeight >= 0.0 {
          var j :| 0 <= j < |ps| && ps[k := b][j] == x;
          if j != k {
            assert x in ps;
          }
        }
        ClimbKeepsAloft(ps[k := b], k + 1);
      }
    }
  }

  /** Every projectile 5 higher. */
  function Lift(ps: seq<Bolt>): (r: seq<Bolt>)
    ensures |r| == |ps|
  {
    seq(|ps|, i requires 0 <= i < |ps| => Up(ps[i]))
  }

  /** A projectile that stays at least partly on the canvas after rising. */
  predicate Stays(b: Bolt)
  {
    Up(b).y + BoltHeight >= 0.0
  }

  /** Reference behaviour: when no projectile leaves the top, the pass moves
      each one exactly 5 up and removes none. */
  lemma ClimbWithoutExit(ps: seq<Bolt>)
    requires forall b :: b in ps ==> Stays(b)
    ensures Climb(ps, 0) == Lift(ps)
  {
    ClimbStays(ps, 0);
  }

  lemma {:induction false} ClimbStays(ps: seq<Bolt>, k: nat)
    requires k <= |ps| && forall i :: k <= i < |ps| ==> Stays(ps[i])
    decreases |ps| - k
    ensures |Climb(ps, k)| == |ps|
    ensures forall i :: 0 <= i < k ==> Climb(ps, k)[i] == ps[i]
    ensures forall i :: k <= i < |ps| ==> Climb(ps, k)[i] == Up(ps[i])
  {
    if k < |ps| {
      var q := ps[k := Up(ps[k])];
      assert Climb(ps, k) == Climb(q, k + 1);
      ClimbStays(q, k + 1);
    }
  }

  /** The pass told on the projectiles it has not visited yet, the next one
      first: one that leaves is spliced, and its successor slides past the
      visit unmoved; any other rises by 5. */
  function Soar(rest: seq<Bolt>): (r: seq<Bolt>)
    decreases |rest|
    ensures |r| <= |rest|
  {
    if rest == [] then []
    else if !Stays(rest[0]) then
      (if |rest| == 1 then [] else [rest[1]] + Soar(rest[2..]))
    else [Up(rest[0])] + Soar(rest[1..])
  }

  /** The in-place pass from `k` keeps the projectiles before `k` and leaves
      exactly `Soar` of the unvisited rest after them. */
  lemma {:induction false} ClimbIsSoar(ps: seq<Bolt>, k: nat)
    requires k <= |ps|
    decreases |ps| - k, 1
    ensures Climb(ps, k) == ps[..k] + Soar(ps[k..])
  {
    if k == |ps| {
      assert ps[k..] == [] && ps[..k] == ps;
    } else if !Stays(ps[k]) {
      ExitSoar(ps, k);
    } else {
      UpSoar(ps, k);
    }
  }

  /** The step of `ClimbIsSoar` where the projectile at `k` leaves. */
  lemma {:induction false} ExitSoar(ps: seq<Bolt>, k: nat)
    requires k < |ps| && !Stays(ps[k])
    decreases |ps| - k, 0
    ensures Climb(ps, k) == ps[..k] + Soar(ps[k..])
  {
    var q := RemoveAt(ps, k);
    assert Climb(ps, k) == Climb(q, k + 1);
    if k + 1 < |ps| {
      ClimbIsSoar(q, k + 1);
      SpliceSplit(ps, k);
      SoarExits(ps[k..]);
      assert ps[k..][2..] == ps[k + 2..];
      Regroup(ps[..k], [ps[k + 1]], Soar(ps[k + 2..]));
    } else {
      assert q == ps[..k] && ps[k..] == [ps[k]];
    }
  }

  /** The step of `ClimbIsSoar` where the projectile at `k` rises. */
  lemma {:induction false} UpSoar(ps: seq<Bolt>, k: nat)
    requires k < |ps| && Stays(ps[k])
    decreases |ps| - k, 0
    ensures Climb(ps, k) == ps[..k] + Soar(ps[k..])
  {
    var q := ps[k := Up(ps[k])];
    assert Climb(ps, k) == Climb(q, k + 1);
    ClimbIsSoar(q, k + 1);
    UpdateSplit(ps, k, Up(ps[k]));
    SoarRises(ps[k..]);
    assert ps[k..][1..] == ps[k + 1..];
    Regroup(ps[..k], [Up(ps[k])], Soar(ps[k + 1..]));
  }

  lemma SoarExits(rest: seq<Bolt>)
    requires |rest| >= 2 && !Stays(rest[0])
    ensures Soar(rest) == [rest[1]] + Soar(rest[2..])
  {
  }

  lemma SoarRises(rest: seq<Bolt>)
    requires |rest| >= 1 && Stays(rest[0])
    ensures Soar(rest) == [Up(rest[0])] + Soar(rest[1..])
  {
  }

  /** Wherever a projectile leaves, the one after it slides into its slot and
      is left there unmoved, whether or not it would have left the canvas. */
  lemma ClimbSkipsSuccessor(ps: seq<Bolt>, k: nat)
    requires k + 1 < |ps| && !Stays(ps[k])
    ensures k < |Climb(ps, k)| && Climb(ps, k)[k] == ps[k + 1]
  {
    ClimbIsSoar(ps, k);
    assert ps[k..][1] == ps[k + 1];
    assert Soar(ps[k..])[0] == ps[k + 1];
  }

  // ---------------------------------------------------------------------------
  // `checkCollisions`

  /** What the collision pass works on: projectiles, enemies and the score. */
  datatype Melee = Melee(bolts: seq<Bolt>, aliens: seq<Alien>, score: nat)

  /** The inner `enemies.forEach` from index `ei` on, for the projectile `p`
      read at index `pi` when the outer pass reached it. Each overlap splices
      index `pi` of the projectiles and index `ei` of the enemies and scores
      10; the callback keeps testing the same `p` after its own removal. */
  function Clash(f: Melee, p: Bolt, pi: nat, ei: nat): (r: Melee)
    decreases |f.aliens| - ei
    ensures |r.bolts| <= |f.bolts|
  {
    if ei >= |f.aliens| then f
    else if Overlap(Hull(p), Body(f.aliens[ei])) then
      Clash(Melee(RemoveAt(f.bolts, pi), RemoveAt(f.aliens, ei), f.score + HitPoints), p, pi, ei + 1)
    else Clash(f, p, pi, ei + 1)
  }

  /** The outer `projectiles.forEach` from index `k` on. */
  function Collide(f: Melee, k: nat): Melee
    decreases |f.bolts| - k
  {
    if k >= |f.bolts| then f
    else Collide(Clash(f, f.bolts[k], k, 0), k + 1)
  }

  /** `r` comes from `f` by collisions: every enemy gone was worth 10, at most
      one projectile went with each, and whatever is left was there before. */
  ghost predicate Accounts(f: Melee, r: Melee)
  {
    && |r.aliens| <= |f.aliens| && |r.bolts| <= |f.bolts|
    && |f.bolts| - |r.bolts| <= |f.aliens| - |r.aliens|
    && r.score == f.score + HitPoints * (|f.aliens| - |r.aliens|)
    && (forall a :: a in r.aliens ==> a in f.aliens)
    && (forall b :: b in r.bolts ==> b in f.bolts)
  }

  lemma AccountsChain(f: Melee, g: Melee, r: Melee)
    requires Accounts(f, g) && Accounts(g, r)
    ensures Accounts(f, r)
  {
  }

  /** The inner pass accounts for what it removes; once it hits, the
      projectile at `pi` (if there still is one) is gone. */
  lemma {:induction false} ClashAccounts(f: Melee, p: Bolt, pi: nat, ei: nat)
    decreases |f.aliens| - ei
    ensures Accounts(f, Clash(f, p, pi, ei))
    ensures pi < |f.bolts| && |Clash(f, p, pi, ei).aliens| < |f.aliens| ==>
              |Clash(f, p, pi, ei).bolts| < |f.bolts|
  {
    if ei < |f.aliens| {
      if Overlap(Hull(p), Body(f.aliens[ei])) {
        var next := Melee(RemoveAt(f.bolts, pi), RemoveAt(f.aliens, ei), f.score + HitPoints);
        RemoveAtSubset(f.bolts, pi);
        RemoveAtSubset(f.aliens, ei);
        assert Accounts(f, next);
        ClashAccounts(next, p, pi, ei + 1);
        AccountsChain(f, next, Clash(next, p, pi, ei + 1));
      } else {
        ClashAccounts(f, p, pi, ei + 1);
      }
    }
  }

  /** The whole pass: the score rises by exactly 10 per enemy removed, at most
      one projectile goes per enemy, a removed enemy always takes a projectile
      with it, and nothing new appears. */
  lemma {:induction false} CollideAccounts(f: Melee, k: nat)
    decreases |f.bolts| - k
    ensures Accounts(f, Collide(f, k))
    ensures |Collide(f, k).aliens| < |f.aliens| ==> |Collide(f, k).bolts| < |f.bolts|
  {
    if k < |f.bolts| {
      var g := Clash(f, f.bolts[k], k, 0);
      ClashAccounts(f, f.bolts[k], k, 0);
      CollideAccounts(g, k + 1);
      AccountsChain(f, g, Collide(g, k + 1));
    }
  }

  /** No projectile overlapping any enemy: the pass changes nothing. */
  lemma {:induction false} CollideWithoutOverlap(f: Melee, k: nat)
    requires forall b, a :: b in f.bolts && a in f.aliens ==> !Overlap(Hull(b), Body(a))
    decreases |f.bolts| - k
    ensures Collide(f, k) == f
  {
    if k < |f.bolts| {
      ClashMisses(f, f.bolts[k], k, 0);
      CollideWithoutOverlap(f, k + 1);
    }
  }

  lemma {:induction false} ClashMisses(f: Melee, p: Bolt, pi: nat, ei: nat)
    requires forall a :: a in f.aliens ==> !Overlap(Hull(p), Body(a))
    decreases |f.aliens| - ei
    ensures Clash(f, p, pi, ei) == f
  {
    if ei < |f.aliens| {
      assert f.aliens[ei] in f.aliens;
      ClashMisses(f, p, pi, ei + 1);
    }
  }

  /** An enemy the inner pass removes overlapped the projectile tested. */
  lemma {:induction false} ClashCause(f: Melee, p: Bolt, pi: nat, ei: nat, a: Alien)
    requires a in f.aliens && a !in Clash(f, p, pi, ei).aliens
    decreases |f.aliens| - ei
    ensures Overlap(Hull(p), Body(a))
  {
    if ei < |f.aliens| {
      if Overlap(Hull(p), Body(f.aliens[ei])) {
        var next := Melee(RemoveAt(f.bolts, pi), RemoveAt(f.aliens, ei), f.score + HitPoints);
        if a in next.aliens {
          ClashCause(next, p, pi, ei + 1, a);
        } else {
          RemoveAtLoses(f.aliens, ei, a);
        }
      } else {
        ClashCause(f, p, pi, ei + 1, a);
      }
    }
  }

  /** An enemy the whole pass removes overlapped one of the projectiles there
      were before it. */
  lemma {:induction false} CollideCause(f: Melee, k: nat, a: Alien)
    requires a in f.aliens && a !in Collide(f, k).aliens
    decreases |f.bolts| - k
    ensures exists b :: b in f.bolts && Overlap(Hull(b), Body(a))
  {
    if k < |f.bolts| {
      var g := Clash(f, f.bolts[k], k, 0);
      if a in g.aliens {
        CollideCause(g, k + 1, a);
        ClashAccounts(f, f.bolts[k], k, 0);
        var b :| b in g.bolts && Overlap(Hull(b), Body(a));
        assert b in f.bolts;
      } else {
        ClashCause(f, f.bolts[k], k, 0, a);
        assert f.bolts[k] in f.bolts;
      }
    }
  }

  /** An inner pass that meets an overlapping enemy removes one. */
  lemma {:induction false} ClashHits(f: Melee, p: Bolt, pi: nat, ei: nat, j: nat)
    requires ei <= j < |f.aliens| && Overlap(Hull(p), Body(f.aliens[j]))
    decreases |f.aliens| - ei
    ensures |Clash(f, p, pi, ei).aliens| < |f.aliens|
  {
    if Overlap(Hull(p), Body(f.aliens[ei])) {
      var next := Melee(RemoveAt(f.bolts, pi), RemoveAt(f.aliens, ei), f.score + HitPoints);
      ClashAccounts(next, p, pi, ei + 1);
    } else {
      ClashHits(f, p, pi, ei + 1, j);
    }
  }

  /** The projectile the outer pass reaches first removes an enemy whenever it
      overlaps one. */
  lemma CollideFirstHits(f: Melee, k: nat)
    requires k < |f.bolts|
    ensures (exists a :: a in f.aliens && Overlap(Hull(f.bolts[k]), Body(a))) ==>
              |Collide(f, k).aliens| < |f.aliens|
  {
    if a :| a in f.aliens && Overlap(Hull(f.bolts[k]), Body(a)) {
      var j :| 0 <= j < |f.aliens| && f.aliens[j] == a;
      var g := Clash(f, f.bolts[k], k, 0);
      ClashHits(f, f.bolts[k], k, 0, j);
      CollideAccounts(g, k + 1);
    }
  }

  /** One projectile and one enemy: they collide exactly when their
      rectangles overlap, and then both go and the score rises by 10. */
  lemma CollideOne(p: Bolt, a: Alien, score: nat)
    ensures Collide(Melee([p], [a], score), 0) ==
            if Overlap(Hull(p), Body(a)) then Melee([], [], score + HitPoints) else Melee([p], [a], score)
  {
    var f := Melee([p], [a], score);
    if Overlap(Hull(p), Body(a)) {
      assert RemoveAt([p], 0) == [] && RemoveAt([a], 0) == [];
      assert Clash(f, p, 0, 0) == Melee([], [], score + HitPoints);
    } else {
      assert Clash(f, p, 0, 0) == f;
    }
  }

  // ---------------------------------------------------------------------------
  // `update`, `levelUp`, the deferred completion and the key handlers

  /** `moveEnemies`. */
  function Marched(s: Stage, c: Canvas, m: Motion): Stage
  {
    s.(enemies := March(s.enemies, s.playerX, c, m))
  }

  /** `moveProjectiles`. */
  function Climbed(s: Stage): Stage
  {
    s.(projectiles := Climb(s.projectiles, 0))
  }

  /** `checkCollisions`. */
  function Collided(s: Stage): Stage
  {
    var f := Collide(Melee(s.projectiles, s.enemies, s.score), 0);
    s.(projectiles := f.bolts, enemies := f.aliens, score := f.score)
  }

  /** `levelUp`: once the wave is gone and no transition is under way, the
      transition starts and the level rises; the completion is deferred. */
  function Promote(s: Stage): Stage
  {
    if |s.enemies| == 0 && !s.transition then s.(transition := true, level := s.level + 1) else s
  }

  /** The held arrow keys move the player 5, left only from a positive x and
      right only while its right edge is left of the canvas edge. */
  function Walk(s: Stage, c: Canvas): Stage
  {
    var x1 := if "ArrowLeft" in s.held && s.playerX > 0.0 then s.playerX - PlayerStep else s.playerX;
    var x2 := if "ArrowRight" in s.held && x1 + PlayerWidth < c.width as real then x1 + PlayerStep else x1;
    s.(playerX := x2)
  }

  /** One call of `update`: movement and collisions only outside a
      transition, then `levelUp`, then the held keys. */
  function Tick(s: Stage, c: Canvas, m: Motion): Stage
  {
    var a := if s.transition then s else Collided(Climbed(Marched(s, c, m)));
    Walk(Promote(a), c)
  }

  /** The `setTimeout` callback of `levelUp`: the player re-centred, the flag
      cleared, the projectiles emptied and a wave for the new level. */
  function Completed(s: Stage, c: Canvas, draw: nat -> Draw): Stage
  {
    s.(playerX := Centre(c), transition := false, projectiles := [], enemies := Wave(c, s.level, draw))
  }

  /** `handleKeyDown`: the key is held; Space outside a transition fires a
      projectile from the middle of the player's top edge. */
  function Pressed(s: Stage, c: Canvas, key: string): Stage
  {
    var h := s.(held := s.held + {key});
    if key == " " && !s.transition then
      h.(projectiles := h.projectiles + [Bolt(s.playerX + PlayerWidth / 2.0 - BoltWidth, PlayerY(c))])
    else h
  }

  /** `handleKeyUp`. */
  function Released(s: Stage, key: string): Stage
  {
    s.(held := s.held - {key})
  }

  /** `initializeGame`: score 0, level 1, the player centred, no key held and
      a first wave. */
  function Start(c: Canvas, draw: nat -> Draw): Stage
  {
    Stage(Centre(c), Wave(c, 1, draw), [], {}, 0, 1, false)
  }

  /** The player is never more than one step past either canvas edge, and no
      projectile lies wholly above the canvas. */
  ghost predicate Sound(s: Stage, c: Canvas)
  {
    -PlayerStep < s.playerX && s.playerX + PlayerWidth < c.width as real + PlayerStep && Aloft(s.projectiles)
  }

  /** `levelUp` acts once per cleared wave: the level rises by one exactly when
      no enemy is left and no transition is under way, and a second call
      changes nothing. */
  lemma PromoteOnce(s: Stage)
    ensures Promote(s).level == s.level + 1 <==> |s.enemies| == 0 && !s.transition
    ensures Promote(s).level != s.level + 1 ==> Promote(s) == s
    ensures Promote(s).level == s.level + 1 ==> Promote(s).transition
    ensures Promote(Promote(s)) == Promote(s)
  {
  }

  /** During a transition a frame moves nothing but the player: no enemy or
      projectile moves, nothing collides, the score, level and flag stay. */
  lemma TickInTransition(s: Stage, c: Canvas, m: Motion)
    requires s.transition
    ensures Tick(s, c, m) == Walk(s, c)
  {
  }

  /** A frame raises the level by at most one, and only when it ends with the
      wave cleared and starts the transition; outside a transition the score
      rises by exactly 10 per enemy removed. */
  lemma TickLevels(s: Stage, c: Canvas, m: Motion)
    ensures var r := Tick(s, c, m);
            && (r.level == s.level || r.level == s.level + 1)
            && (r.level == s.level + 1 ==> !s.transition && r.transition && |r.enemies| == 0)
            && r.score >= s.score
            && (!s.transition ==> r.score == s.score + HitPoints * (|s.enemies| - |r.enemies|))
  {
    if !s.transition {
      var a := Climbed(Marched(s, c, m));
      CollideAccounts(Melee(a.projectiles, a.enemies, a.score), 0);
    }
  }

  /** Held-key movement keeps the player within one step of the canvas. A
      held left arrow alone moves it 5 left while its left edge is right of
      0, a held right arrow alone 5 right while its right edge is left of the
      canvas edge; with neither held, or both held away from the left edge,
      it stays put. Only the player's position changes. */
  lemma WalkKeepsLane(s: Stage, c: Canvas)
    requires Sound(s, c)
    ensures Sound(Walk(s, c), c)
    ensures -PlayerStep <= Walk(s, c).playerX - s.playerX <= PlayerStep
    ensures Walk(s, c).(playerX := s.playerX) == s
    ensures "ArrowLeft" in s.held && "ArrowRight" !in s.held ==>
              Walk(s, c).playerX == if s.playerX > 0.0 then s.playerX - PlayerStep else s.playerX
    ensures "ArrowRight" in s.held && "ArrowLeft" !in s.held ==>
              Walk(s, c).playerX == if s.playerX + PlayerWidth < c.width as real then s.playerX + PlayerStep else s.playerX
    ensures "ArrowLeft" !in s.held && "ArrowRight" !in s.held ==> Walk(s, c) == s
    ensures "ArrowLeft" in s.held && "ArrowRight" in s.held && s.playerX > 0.0 ==> Walk(s, c) == s
  {
  }

  lemma TickKeepsSound(s: Stage, c: Canvas, m: Motion)
    requires Sound(s, c)
    ensures Sound(Tick(s, c, m), c)
  {
    if !s.transition {
      var a := Marched(s, c, m);
      ClimbKeepsAloft(a.projectiles, 0);
      var b := Climbed(a);
      CollideAccounts(Melee(b.projectiles, b.enemies, b.score), 0);
      assert Sound(Collided(b), c);
    }
    WalkKeepsLane(Promote(if s.transition then s else Collided(Climbed(Marched(s, c, m)))), c);
  }

  /** The completion leaves the player centred, no projectile, a full wave
      for the new level and the flag cleared; on a canvas wider than 40 it
      leaves a sound state. */
  lemma CompletedReady(s: Stage, c: Canvas, draw: nat -> Draw)
    ensures var r := Completed(s, c, draw);
            && r.playerX + PlayerWidth / 2.0 == c.width as real / 2.0
            && r.projectiles == [] && !r.transition
            && |r.enemies| == WaveRows(s.level) * PerRow(c)
            && r.level == s.level && r.score == s.score
    ensures c.width > 40 ==> Sound(Completed(s, c, draw), c)
  {
  }

  /** Space fires nothing during a transition; otherwise it appends exactly
      one projectile level with the player's top edge, its centre 2.5 pixels
      left of the player's centre (the code subtracts the projectile's whole
      width from the player's centre, not half of it). On
      a canvas at least 40 high the state stays sound. */
  lemma SpaceFires(s: Stage, c: Canvas)
    ensures var r := Pressed(s, c, " ");
            && (s.transition ==> r.projectiles == s.projectiles)
            && (!s.transition ==>
                  && |r.projectiles| == |s.projectiles| + 1
                  && r.projectiles[..|s.projectiles|] == s.projectiles
                  && var b := r.projectiles[|s.projectiles|];
                     b.x + BoltWidth / 2.0 == s.playerX + PlayerWidth / 2.0 - BoltWidth / 2.0
                     && b.y == PlayerY(c))
    ensures c.height >= 40 && Sound(s, c) ==> Sound(Pressed(s, c, " "), c)
  {
    var r := Pressed(s, c, " ");
    if !s.transition {
      assert r.projectiles[..|s.projectiles|] == s.projectiles;
    }
  }

  /** Keys other than Space only change which keys are held. */
  lemma OtherKeysOnlyHold(s: Stage, c: Canvas, key: string)
    requires key != " "
    ensures Pressed(s, c, key) == s.(held := s.held + {key})
    ensures Released(Pressed(s, c, key), key) == s.(held := s.held - {key})
  {
  }

  /** The game starts sound on a canvas wider than 40, whatever its height:
      there are no projectiles yet. */
  lemma StartIsSound(c: Canvas, draw: nat -> Draw)
    requires c.width > 40
    ensures Sound(Start(c, draw), c)
    ensures |Start(c, draw).enemies| == 4 * PerRow(c)
  {
  }
}
