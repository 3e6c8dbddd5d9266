/**
 * The sprite registry (GroupsAndCollison): the two player characters, the
 * orb group and the fireball group, and the three collide-and-remove
 * queries between them.
 */
module Groups {
  import opened Geometry
  import opened Projectiles
  import Runner
  import Flyer

  /** The members of a group whose rectangle overlaps the actor's, in group order. */
  function Hits(actor: Rect, g: seq<Projectile>): (hits: seq<Projectile>)
    ensures |hits| <= |g|
    ensures forall p | p in hits :: p in g && Overlaps(actor, p.rect)
    ensures forall i | 0 <= i < |g| && Overlaps(actor, g[i].rect) :: g[i] in hits
  {
    if g == [] then []
    else
      var p := g[|g| - 1];
      Hits(actor, g[..|g| - 1]) + (if Overlaps(actor, p.rect) then [p] else [])
  }

  /** The members of a group that do not overlap the actor, in group order. */
  function Misses(actor: Rect, g: seq<Projectile>): (rest: seq<Projectile>)
    ensures |rest| <= |g|
    ensures forall p | p in rest :: p in g && !Overlaps(actor, p.rect)
    ensures forall i | 0 <= i < |g| && !Overlaps(actor, g[i].rect) :: g[i] in rest
  {
    if g == [] then []
    else
      var p := g[|g| - 1];
      Misses(actor, g[..|g| - 1]) + (if Overlaps(actor, p.rect) then [] else [p])
  }

  /** A query splits the group: what it returns and what stays make up the old group. */
  lemma {:induction false} CollidePartition(actor: Rect, g: seq<Projectile>)
    ensures multiset(Hits(actor, g)) + multiset(Misses(actor, g)) == multiset(g)
  {
    if g != [] {
      var init, p := g[..|g| - 1], g[|g| - 1];
      assert multiset(g) == multiset(init) + multiset{p} by {
        assert g == init + [p];
      }
      CollidePartition(actor, init);
      PartitionStep(actor, g);
    }
  }

  /** Proof step for CollidePartition: the last member goes to exactly one side. */
  lemma PartitionStep(actor: Rect, g: seq<Projectile>)
    requires g != []
    ensures var init, p := g[..|g| - 1], g[|g| - 1];
      multiset(Hits(actor, g)) + multiset(Misses(actor, g)) ==
      multiset(Hits(actor, init)) + multiset(Misses(actor, init)) + multiset{p}
  {
    var init, p := g[..|g| - 1], g[|g| - 1];
    if Overlaps(actor, p.rect) {
      assert Hits(actor, g) == Hits(actor, init) + [p];
      assert Misses(actor, g) == Misses(actor, init);
    } else {
      assert Hits(actor, g) == Hits(actor, init);
      assert Misses(actor, g) == Misses(actor, init) + [p];
    }
  }

  /** The same query again, with nothing moved, finds nothing: hits are removed. */
  lemma SecondQueryEmpty(actor: Rect, g: seq<Projectile>)
    ensures Hits(actor, Misses(actor, g)) == []
  {
    NoOverlapNoHits(actor, Misses(actor, g));
  }

  /** A group none of whose members overlaps the actor yields no hits. */
  lemma {:induction false} NoOverlapNoHits(actor: Rect, s: seq<Projectile>)
    requires forall p | p in s :: !Overlaps(actor, p.rect)
    ensures Hits(actor, s) == []
  {
    if s != [] {
      var init := s[..|s| - 1];
      assert forall p | p in init :: p in s;
      NoOverlapNoHits(actor, init);
      assert s[|s| - 1] in s;
    }
  }

  /**
   * Consumption is at most once: what a second query by another actor
   * returns after the first one ran was never returned by the first.
   */
  lemma ConsumedAtMostOnce(a: Rect, b: Rect, g: seq<Projectile>)
    ensures multiset(Hits(a, g)) + multiset(Hits(b, Misses(a, g))) <= multiset(g)
  {
    CollidePartition(a, g);
    CollidePartition(b, Misses(a, g));
  }

  /**
   * pygame.sprite.spritecollide(actor, group, True): walk the group, hand
   * back every member that overlaps and kill it.
   */
  method SpriteCollide(actor: Rect, g: seq<Projectile>) returns (hits: seq<Projectile>, rest: seq<Projectile>)
    ensures hits == Hits(actor, g) && rest == Misses(actor, g)
  {
    hits, rest := [], [];
    var i := 0;
    while i < |g|
      invariant 0 <= i <= |g|
      invariant hits == Hits(actor, g[..i]) && rest == Misses(actor, g[..i])
    {
      if Overlaps(actor, g[i].rect) {
        hits := hits + [g[i]];
      } else {
        rest := rest + [g[i]];
      }
      assert g[..i + 1][..i] == g[..i];
      i := i + 1;
    }
    assert g[..i] == g;
  }

  /** The registry's contents as a value: both characters and both groups. */
  datatype World = World(
    runner: Runner.RunnerState,
    flyer: Flyer.FlyerState,
    orbs: seq<Projectile>,
    fireballs: seq<Projectile>)
  {
    /** Each group holds its own kind, and every cursor is within its tracks. */
    predicate Valid() {
      && runner.Valid() && flyer.Valid()
      && (forall p | p in orbs :: p.Orb?)
      && (forall p | p in fireballs :: p.Fireball? && p.frameIndex < FIREBALL_FRAMES as real)
    }
  }

  const INITIAL: World := World(Runner.INITIAL, Flyer.INITIAL, [], [])

  /**
   * The registry: one runner and one flyer (each the single member of its
   * own group, so the queries always use that one), and the two projectile
   * groups.
   */
  class Registry {
    const runner: Runner.CharacterOne
    const flyer: Flyer.CharacterTwo
    var orbs: seq<Projectile>
    var fireballs: seq<Projectile>

    function State(): World
      reads this, runner, flyer
    {
      World(runner.State(), flyer.State(), orbs, fireballs)
    }

    constructor ()
      ensures State() == INITIAL
      ensures fresh(runner) && fresh(flyer)
    {
      runner := new Runner.CharacterOne();
      flyer := new Flyer.CharacterTwo();
      orbs, fireballs := [], [];
    }

    /** collision_char1_orb: the runner against the orb group. */
    method CollisionRunnerOrb() returns (hits: seq<Projectile>)
      modifies this
      ensures hits == Hits(runner.State().Bounds(), old(orbs))
      ensures State() == old(State()).(orbs := Misses(runner.State().Bounds(), old(orbs)))
    {
      hits, orbs := SpriteCollide(runner.State().Bounds(), orbs);
    }

    /** collision_char2_orb: the flyer against the orb group. */
    method CollisionFlyerOrb() returns (hits: seq<Projectile>)
      modifies this
      ensures hits == Hits(flyer.State().Bounds(), old(orbs))
      ensures State() == old(State()).(orbs := Misses(flyer.State().Bounds(), old(orbs)))
    {
      hits, orbs := SpriteCollide(flyer.State().Bounds(), orbs);
    }

    /** collision_char2_fireball: the flyer against the fireball group. */
    method CollisionFlyerFireball() returns (hits: seq<Projectile>)
      modifies this
      ensures hits == Hits(flyer.State().Bounds(), old(fireballs))
      ensures State() == old(State()).(fireballs := Misses(flyer.State().Bounds(), old(fireballs)))
    {
      hits, fireballs := SpriteCollide(flyer.State().Bounds(), fireballs);
    }

    /** orb_group.update(speed) */
    method UpdateOrbs(speed: int)
      modifies this
      ensures State() == old(State()).(orbs := Survivors(old(orbs), speed))
    {
      orbs := UpdateGroup(orbs, speed);
    }

    /** fireball_group.update(): fireballs take no speed, so the one passed is unused. */
    method UpdateFireballs()
      modifies this
      ensures State() == old(State()).(fireballs := Survivors(old(fireballs), 0))
    {
      fireballs := UpdateGroup(fireballs, 0);
    }

    /** orb_group.add(orb): a new sprite joins at the end of the group. */
    method AddOrb(p: Projectile)
      modifies this
      ensures State() == old(State()).(orbs := old(orbs) + [p])
    {
      orbs := orbs + [p];
    }

    /** fireball_group.add(fireball) */
    method AddFireball(p: Projectile)
      modifies this
      ensures State() == old(State()).(fireballs := old(fireballs) + [p])
    {
      fireballs := fireballs + [p];
    }

    method EmptyOrbs()
      modifies this
      ensures State() == old(State()).(orbs := [])
    {
      orbs := [];
    }

    method EmptyFireballs()
      modifies this
      ensures State() == old(State()).(fireballs := [])
    {
      fireballs := [];
    }
  }
}
