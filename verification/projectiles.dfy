/**
 * The two kinds of projectile (Orb, FireBall): spawned at a random point of
 * a range, moved left every tick, and removed from their group once their
 * left edge reaches x = -100.
 */
module Projectiles {
  import opened Geometry
  import opened Cursor

  const DESPAWN_X: int := -100
  const FIREBALL_SPEED: int := 25
  /** A fireball's rectangle is that of a 63 x 43 frame scaled by 4. */
  const FIREBALL_WIDTH: int := 252
  const FIREBALL_HEIGHT: int := 172
  const FIREBALL_FRAMES: nat := 8
  const FIREBALL_STEP: real := 0.05

  /**
   * A live projectile: an orb (the pickup) or a fireball (the hazard), with
   * the fireball's animation cursor.
   */
  datatype Projectile = Orb(rect: Rect) | Fireball(rect: Rect, frameIndex: Cursor)

  /**
   * Orb.__init__: the top-left corner is drawn from two inclusive ranges;
   * `w` and `h` are the orb image's size.
   */
  function SpawnOrb(xLo: int, xHi: int, yLo: int, yHi: int, dx: nat, dy: nat, w: int, h: int): (p: Projectile)
    requires xLo <= xHi && yLo <= yHi
    ensures p.Orb?
    ensures xLo <= p.rect.x <= xHi && yLo <= p.rect.y <= yHi
    ensures p.rect.w == w && p.rect.h == h
  {
    Orb(Rect(RandInt(xLo, xHi, dx), RandInt(yLo, yHi, dy), w, h))
  }

  /** FireBall.__init__: the top-left corner is drawn from [1500, 1700] x [250, 600]. */
  function SpawnFireball(dx: nat, dy: nat): (p: Projectile)
    ensures p.Fireball? && p.frameIndex == 0.0
    ensures 1500 <= p.rect.x <= 1700 && 250 <= p.rect.y <= 600
    ensures p.rect.w == FIREBALL_WIDTH && p.rect.h == FIREBALL_HEIGHT
  {
    Fireball(Rect(RandInt(1500, 1700, dx), RandInt(250, 600, dy), FIREBALL_WIDTH, FIREBALL_HEIGHT), 0.0)
  }

  /**
   * One update before the despawn test: an orb moves left by the speed its
   * group is given, a fireball by its own fixed speed and also advances its
   * animation cursor.
   */
  function Updated(p: Projectile, orbSpeed: int): (q: Projectile)
    ensures q.Orb? <==> p.Orb?
    ensures q.rect == p.rect.(x := p.rect.x - (if p.Orb? then orbSpeed else FIREBALL_SPEED))
    ensures q.Fireball? ==> q.frameIndex == Advance(p.frameIndex, FIREBALL_STEP, FIREBALL_FRAMES)
    ensures q.Fireball? ==> q.frameIndex < FIREBALL_FRAMES as real
  {
    match p
    case Orb(r) => Orb(r.(x := r.x - orbSpeed))
    case Fireball(r, c) =>
      Fireball(r.(x := r.x - FIREBALL_SPEED), Advance(c, FIREBALL_STEP, FIREBALL_FRAMES))
  }

  /** disappear: a projectile whose left edge is at or past x = -100 is killed. */
  predicate Despawned(p: Projectile) {
    p.rect.x <= DESPAWN_X
  }

  /**
   * The despawn test follows the move: a projectile leaves its group on
   * the update that brings its left edge to -100 or beyond.
   */
  lemma DespawnAfterMove(p: Projectile, orbSpeed: int)
    ensures Despawned(Updated(p, orbSpeed)) <==>
      p.rect.x - (if p.Orb? then orbSpeed else FIREBALL_SPEED) <= DESPAWN_X
  {}

  /**
   * Group.update: every member updates, and the ones that reach the despawn
   * line leave the group; the rest keep their order.
   */
  function Survivors(g: seq<Projectile>, orbSpeed: int): (kept: seq<Projectile>)
    ensures |kept| <= |g|
    ensures forall q | q in kept :: !Despawned(q)
    ensures forall q | q in kept :: exists i :: 0 <= i < |g| && q == Updated(g[i], orbSpeed)
    ensures forall i | 0 <= i < |g| && !Despawned(Updated(g[i], orbSpeed)) ::
              Updated(g[i], orbSpeed) in kept
  {
    if g == [] then []
    else
      var q := Updated(g[|g| - 1], orbSpeed);
      Survivors(g[..|g| - 1], orbSpeed) + (if Despawned(q) then [] else [q])
  }

  /** A group update runs every member's update in turn. */
  method UpdateGroup(g: seq<Projectile>, orbSpeed: int) returns (kept: seq<Projectile>)
    ensures kept == Survivors(g, orbSpeed)
  {
    kept := [];
    var i := 0;
    while i < |g|
      invariant 0 <= i <= |g|
      invariant kept == Survivors(g[..i], orbSpeed)
    {
      var q := Updated(g[i], orbSpeed);
      if !Despawned(q) {
        kept := kept + [q];
      }
      assert g[..i + 1][..i] == g[..i];
      i := i + 1;
    }
    assert g[..i] == g;
  }
}
