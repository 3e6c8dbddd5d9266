/**
 * One tick of GameLoop as a function of the game state and the tick's
 * input: drain the event queue (mouse clicks, the two spawn timers,
 * quit), then run the phase that the flags select.
 */
module Game {
  import opened Wrappers
  import opened Geometry
  import opened Controls
  import opened Projectiles
  import opened Groups
  import opened Energy
  import Runner
  import Flyer

  /** The retry button on the victory and game-over screens. */
  const RETRY_BUTTON: Rect := Rect(475, 450, 300, 80)
  const PHASE_ONE_ORB_SPEED: int := 10
  const PHASE_TWO_ORB_SPEED: int := 20

  /**
   * The events the loop reacts to. A timer event carries the random draws
   * that place the projectile it spawns.
   */
  datatype Event = Quit | MouseDown | OrbTimer(dx: nat, dy: nat) | FireballTimer(dx: nat, dy: nat) | OtherEvent

  /**
   * Everything one tick samples from outside: the queued events, the keys
   * and the primary mouse button held, the pointer position, and the clock
   * (pygame.time.get_ticks(), in milliseconds).
   */
  datatype Frame = Frame(events: seq<Event>, keys: Keys, mousePressed: bool, pointerX: int, pointerY: int, now: int)

  /** Which version of the game runs, and the orb image's size (an asset this model does not load). */
  datatype Config = Config(variant: Variant, orbWidth: int, orbHeight: int)

  datatype GameState = GameState(meter: Meter, startTime: int, world: World)

  /** How a tick or a run ends: still running, left through a quit event, or stopped by an exception. */
  datatype Outcome = Running(state: GameState) | Exited | Crashed

  /** A state the game can be in: a valid registry, and for src/ at most one phase flag set. */
  predicate GameValid(c: Config, g: GameState) {
    g.world.Valid() && (c.variant == Current ==> g.meter.flags.Exclusive())
  }

  /** The state after GameLoop.__init__: phase one with the bar at 100, both groups empty, the clock at 0. */
  function Initial(c: Config, record: Record): (r: GameState)
    ensures r.meter.bar == 100.0 && r.meter.flags.Phase() == Phase1 && r.meter.flags.Exclusive()
    ensures r.meter.record == record && r.startTime == 0
    ensures r.world.orbs == [] && r.world.fireballs == []
    ensures r.world.runner.Bottom() == Runner.GROUND && r.world.flyer == Flyer.INITIAL
  {
    GameState(Meter(START_BAR, START_FLAGS, 0, 0, record), 0, Groups.INITIAL)
  }

  /** display_time: whole seconds since the last (re)start. */
  function Elapsed(g: GameState, now: int): (secs: int)
    ensures secs * 1000 <= now - g.startTime < secs * 1000 + 1000
    ensures g.startTime <= now ==> 0 <= secs
  {
    (now - g.startTime) / 1000
  }

  /** The runner's update in the chosen version. */
  function RunnerUpdate(v: Variant, s: Runner.RunnerState, keys: Keys, mousePressed: bool): (r: Runner.RunnerState)
    ensures r.Bottom() <= Runner.GROUND
    ensures s.Valid() ==> r.Valid()
  {
    match v
    case Current => Runner.AfterUpdate(s, keys, mousePressed)
    case Legacy => Runner.AfterLegacyUpdate(s, keys, mousePressed)
  }

  /** What an event does in phase one: a click runs the runner-orb query, the orb timer spawns an orb. */
  function PhaseOneEvent(c: Config, g: GameState, e: Event): (r: GameState)
    ensures r.meter.flags == g.meter.flags && r.startTime == g.startTime
    ensures r.meter == g.meter.(bar := r.meter.bar)
    ensures r.world.(orbs := g.world.orbs) == g.world
    ensures e.MouseDown? ==>
      var hits := Hits(g.world.runner.Bounds(), g.world.orbs);
      && r.world.orbs == Misses(g.world.runner.Bounds(), g.world.orbs)
      && r.meter.bar == g.meter.bar + (if hits != [] then ORB_BONUS else 0.0)
    ensures e.OrbTimer? ==>
      && |r.world.orbs| == |g.world.orbs| + 1 && r.world.orbs[..|g.world.orbs|] == g.world.orbs
      && var p := r.world.orbs[|g.world.orbs|];
         p.Orb? && 1300 <= p.rect.x <= 1500 && 250 <= p.rect.y <= 475
    ensures e.OrbTimer? ==> r.meter == g.meter
    ensures !e.MouseDown? && !e.OrbTimer? ==> r == g
  {
    match e
    case MouseDown =>
      var box := g.world.runner.Bounds();
      var hits := Hits(box, g.world.orbs);
      g.(meter := g.meter.(bar := g.meter.bar + (if hits != [] then ORB_BONUS else 0.0)),
         world := g.world.(orbs := Misses(box, g.world.orbs)))
    case OrbTimer(dx, dy) =>
      var p := SpawnOrb(1300, 1500, 250, 475, dx, dy, c.orbWidth, c.orbHeight);
      g.(world := g.world.(orbs := g.world.orbs + [p]))
    case _ => g
  }

  /**
   * Proof step for GameLoop's click handler, not a property of the game:
   * a click in phase one, given the bar it ends with, as the state it builds.
   */
  lemma ClickScore(c: Config, g: GameState, bar: real)
    requires bar == g.meter.bar + (if Hits(g.world.runner.Bounds(), g.world.orbs) != [] then ORB_BONUS else 0.0)
    ensures PhaseOneEvent(c, g, MouseDown) ==
      g.(meter := g.meter.(bar := bar), world := g.world.(orbs := Misses(g.world.runner.Bounds(), g.world.orbs)))
  {}

  /** What an event does in phase two: the two timers spawn an orb and a fireball. */
  function PhaseTwoEvent(c: Config, g: GameState, e: Event): (r: GameState)
    ensures r.meter == g.meter && r.startTime == g.startTime
    ensures r.world.runner == g.world.runner && r.world.flyer == g.world.flyer
    ensures e.OrbTimer? ==>
      && r.world.fireballs == g.world.fireballs
      && |r.world.orbs| == |g.world.orbs| + 1 && r.world.orbs[..|g.world.orbs|] == g.world.orbs
      && var p := r.world.orbs[|g.world.orbs|];
         p.Orb? && 1500 <= p.rect.x <= 1700 && 200 <= p.rect.y <= 600
    ensures e.FireballTimer? ==>
      && r.world.orbs == g.world.orbs
      && |r.world.fireballs| == |g.world.fireballs| + 1
      && r.world.fireballs[..|g.world.fireballs|] == g.world.fireballs
      && r.world.fireballs[|g.world.fireballs|].Fireball?
    ensures !e.OrbTimer? && !e.FireballTimer? ==> r == g
  {
    match e
    case OrbTimer(dx, dy) =>
      var p := SpawnOrb(1500, 1700, 200, 600, dx, dy, c.orbWidth, c.orbHeight);
      g.(world := g.world.(orbs := g.world.orbs + [p]))
    case FireballTimer(dx, dy) =>
      g.(world := g.world.(fireballs := g.world.fireballs + [SpawnFireball(dx, dy)]))
    case _ => g
  }

  /**
   * The body of the event loop for an event other than quit: the phase-one
   * handlers while the first flag is set, then the phase-two handlers
   * while the second flag is set. Events never change the flags, and on
   * the victory and game-over screens they do nothing.
   */
  function OnEvent(c: Config, g: GameState, e: Event): (r: GameState)
    ensures r.meter.flags == g.meter.flags && r.startTime == g.startTime
    ensures r.meter == g.meter.(bar := r.meter.bar)
    ensures !g.meter.flags.first && !g.meter.flags.second ==> r == g
    ensures !g.meter.flags.first ==> r.meter == g.meter
    ensures g.world.Valid() ==> r.world.Valid()
  {
    var g1 := if g.meter.flags.first then PhaseOneEvent(c, g, e) else g;
    if g1.meter.flags.second then PhaseTwoEvent(c, g1, e) else g1
  }

  /** Drain the queue in order; None when a quit event ends the program. */
  function Drain(c: Config, g: GameState, events: seq<Event>): (r: Option<GameState>)
    ensures r.None? <==> Quit in events
    ensures r.Some? ==> r.value.meter.flags == g.meter.flags && r.value.startTime == g.startTime
    ensures r.Some? ==> r.value.meter == g.meter.(bar := r.value.meter.bar)
    ensures r.Some? && !g.meter.flags.first ==> r.value.meter == g.meter
    ensures r.Some? && g.world.Valid() ==> r.value.world.Valid()
    decreases |events|
  {
    if events == [] then Some(g)
    else if events[0] == Quit then None
    else Drain(c, OnEvent(c, g, events[0]), events[1..])
  }

  /**
   * The phase-one branch of draw_phases: at 250 or more the orbs are
   * emptied and the flags switch to phase two, and still in the same tick
   * the bar decays, the runner updates and the orbs move left by 10.
   */
  function PhaseOneTick(c: Config, g: GameState, f: Frame): (r: Option<GameState>)
    ensures r.None? ==> g.meter.bar - DECAY >= FULL && g.meter.record.Unreadable?
    ensures g.meter.bar >= PHASE_TWO_AT && r.Some? ==>
      && r.value.world.orbs == []
      && !r.value.meter.flags.first
      && (r.value.meter.flags.second || r.value.meter.flags.victory)
      && Progress(g.meter.(flags := g.meter.flags.(first := false, second := true)), Elapsed(g, f.now)).Some?
      && r.value.meter == Progress(g.meter.(flags := g.meter.flags.(first := false, second := true)), Elapsed(g, f.now)).value
    ensures g.meter.bar < PHASE_TWO_AT ==>
      && r.Some? && r.value.meter.bar == g.meter.bar - DECAY
      && r.value.meter == Progress(g.meter, Elapsed(g, f.now)).value
      && (g.meter.bar - DECAY > 0.0 ==> r.value.meter.flags == g.meter.flags)
      && r.value.world.orbs == Survivors(g.world.orbs, PHASE_ONE_ORB_SPEED)
    ensures r.Some? ==>
      && r.value.startTime == g.startTime
      && r.value.world.runner == RunnerUpdate(c.variant, g.world.runner, f.keys, f.mousePressed)
      && r.value.world.flyer == g.world.flyer && r.value.world.fireballs == g.world.fireballs
  {
    var g1 := CheckThreshold(g);
    match Progress(g1.meter, Elapsed(g1, f.now))
    case None => None
    case Some(m) => Some(PhaseOneMoves(c, g1, f, m))
  }

  /** The test that opens the phase-one branch: at 250 or more, empty the orbs and switch the flags to phase two. */
  function CheckThreshold(g: GameState): (r: GameState)
    ensures g.meter.bar < PHASE_TWO_AT ==> r == g
    ensures g.meter.bar >= PHASE_TWO_AT ==>
      && r.world.orbs == [] && r.meter.flags == Flags(false, true, g.meter.flags.victory)
    ensures r.meter == g.meter.(flags := r.meter.flags) && r.startTime == g.startTime
    ensures r.world == g.world.(orbs := r.world.orbs)
  {
    if g.meter.bar >= PHASE_TWO_AT then
      g.(meter := g.meter.(flags := g.meter.flags.(first := false, second := true)),
         world := g.world.(orbs := []))
    else g
  }

  /** The rest of the phase-one branch once bar_progress has given `m`: the runner and the orbs update. */
  function PhaseOneMoves(c: Config, g: GameState, f: Frame, m: Meter): GameState {
    g.(meter := m,
       world := g.world.(runner := RunnerUpdate(c.variant, g.world.runner, f.keys, f.mousePressed),
                         orbs := Survivors(g.world.orbs, PHASE_ONE_ORB_SPEED)))
  }

  /**
   * The end of the phase-two branch: the flyer against the orb group, then
   * against the fireball group. What it touches leaves its group; any orb
   * caught adds 30 and any fireball hit takes 20, once per tick however
   * many there were.
   */
  function Collide(m: Meter, startTime: int, w: World): (r: GameState)
    ensures r.meter == m.(bar := r.meter.bar) && r.startTime == startTime
    ensures r.world.runner == w.runner && r.world.flyer == w.flyer
    ensures r.world.orbs == Misses(w.flyer.Bounds(), w.orbs)
    ensures r.world.fireballs == Misses(w.flyer.Bounds(), w.fireballs)
    ensures r.meter.bar - m.bar ==
      (if exists p :: p in w.orbs && Overlaps(w.flyer.Bounds(), p.rect) then ORB_BONUS else 0.0)
      - (if exists p :: p in w.fireballs && Overlaps(w.flyer.Bounds(), p.rect) then FIREBALL_PENALTY else 0.0)
  {
    var box := w.flyer.Bounds();
    var orbHits := Hits(box, w.orbs);
    var fireballHits := Hits(box, w.fireballs);
    assert orbHits != [] <==> exists p :: p in w.orbs && Overlaps(box, p.rect) by {
      if orbHits != [] {
        assert orbHits[0] in orbHits;
      }
    }
    assert fireballHits != [] <==> exists p :: p in w.fireballs && Overlaps(box, p.rect) by {
      if fireballHits != [] {
        assert fireballHits[0] in fireballHits;
      }
    }
    var bar := m.bar + (if orbHits != [] then ORB_BONUS else 0.0);
    var bar := bar - (if fireballHits != [] then FIREBALL_PENALTY else 0.0);
    GameState(m.(bar := bar), startTime,
              w.(orbs := Misses(box, w.orbs), fireballs := Misses(box, w.fireballs)))
  }

  /**
   * Proof step for GameLoop's collision method, not a property of the game:
   * Collide, given the bar it ends with, as the state it builds.
   */
  lemma CollideScore(m: Meter, startTime: int, w: World, bar: real)
    requires bar == m.bar + (if Hits(w.flyer.Bounds(), w.orbs) != [] then ORB_BONUS else 0.0)
                          - (if Hits(w.flyer.Bounds(), w.fireballs) != [] then FIREBALL_PENALTY else 0.0)
    ensures Collide(m, startTime, w) ==
      GameState(m.(bar := bar), startTime,
                w.(orbs := Misses(w.flyer.Bounds(), w.orbs), fireballs := Misses(w.flyer.Bounds(), w.fireballs)))
  {}

  /**
   * The phase-two branch of draw_phases: the bar decays, the flyer updates,
   * orbs move left by 20, fireballs by their own speed, and then the
   * collisions are scored.
   */
  function PhaseTwoTick(c: Config, g: GameState, f: Frame): (r: Option<GameState>)
    ensures r.None? <==> Progress(g.meter, Elapsed(g, f.now)).None?
    ensures r.Some? ==>
      var m := Progress(g.meter, Elapsed(g, f.now)).value;
      var box := Flyer.AfterUpdate(g.world.flyer, f.keys).Bounds();
      var orbs := Survivors(g.world.orbs, PHASE_TWO_ORB_SPEED);
      var fireballs := Survivors(g.world.fireballs, 0);
      && r.value.meter == m.(bar := r.value.meter.bar)
      && r.value.meter.bar == m.bar
           + (if exists p :: p in orbs && Overlaps(box, p.rect) then ORB_BONUS else 0.0)
           - (if exists p :: p in fireballs && Overlaps(box, p.rect) then FIREBALL_PENALTY else 0.0)
      && r.value.startTime == g.startTime
      && r.value.world.runner == g.world.runner
      && r.value.world.flyer == Flyer.AfterUpdate(g.world.flyer, f.keys)
      && r.value.world.orbs == Misses(box, orbs)
      && r.value.world.fireballs == Misses(box, fireballs)
  {
    match Progress(g.meter, Elapsed(g, f.now))
    case None => None
    case Some(m) =>
      Some(Collide(m, g.startTime,
                   World(g.world.runner, Flyer.AfterUpdate(g.world.flyer, f.keys),
                         Survivors(g.world.orbs, PHASE_TWO_ORB_SPEED), Survivors(g.world.fireballs, 0))))
  }

  /** The retry button is clicked when the pointer is inside it and the primary button is held. */
  function RetryClicked(f: Frame): (clicked: bool)
    ensures clicked <==> f.mousePressed && 475 <= f.pointerX < 775 && 450 <= f.pointerY < 530
  {
    RETRY_BUTTON.CollidePoint(f.pointerX, f.pointerY) && f.mousePressed
  }

  /**
   * draw_retry_button: a click restarts the clock, sets the bar to 100,
   * empties both projectile groups, resets both characters and restarts
   * phase one; otherwise nothing changes.
   */
  function RetryTick(c: Config, g: GameState, f: Frame): (r: GameState)
    ensures !RetryClicked(f) ==> r == g
    ensures RetryClicked(f) ==>
      && r.meter.bar == START_BAR
      && r.meter.flags == RetryFlags(c.variant, g.meter.flags)
      && r.startTime == f.now
      && r.world.orbs == [] && r.world.fireballs == []
      && r.world.runner == Runner.AfterReset(g.world.runner)
      && r.world.flyer == Flyer.AfterReset(g.world.flyer)
      && r.meter.(bar := g.meter.bar, flags := g.meter.flags) == g.meter
  {
    if RetryClicked(f) then
      GameState(g.meter.(bar := START_BAR, flags := RetryFlags(c.variant, g.meter.flags)),
                f.now,
                World(Runner.AfterReset(g.world.runner), Flyer.AfterReset(g.world.flyer), [], []))
    else g
  }

  /** draw_phases: exactly one branch runs, chosen by the flags in priority order. */
  function DrawPhases(c: Config, g: GameState, f: Frame): (r: Option<GameState>)
    ensures g.meter.flags.Phase() == Phase1 ==> r == PhaseOneTick(c, g, f)
    ensures g.meter.flags.Phase() == Phase2 ==> r == PhaseTwoTick(c, g, f)
    ensures g.meter.flags.Phase() in {Victory, GameOver} ==> r == Some(RetryTick(c, g, f))
  {
    if g.meter.flags.first then PhaseOneTick(c, g, f)
    else if g.meter.flags.second then PhaseTwoTick(c, g, f)
    else Some(RetryTick(c, g, f))
  }

  /** One pass of the `while True` loop: drain the events, then draw the phase. */
  function Tick(c: Config, g: GameState, f: Frame): (r: Outcome)
    ensures r == Exited <==> Quit in f.events
    ensures r == Crashed ==> g.meter.record.Unreadable?
    ensures r.Running? && r.state.meter.record.Unreadable? ==> g.meter.record.Unreadable?
  {
    match Drain(c, g, f.events)
    case None => Exited
    case Some(g1) =>
      match DrawPhases(c, g1, f)
      case None => Crashed
      case Some(g2) => Running(g2)
  }

  /** The loop over a finite run of ticks, stopping at quit or an exception. */
  function RunFrom(c: Config, g: GameState, frames: seq<Frame>): (r: Outcome)
    ensures r == Exited ==> exists i :: 0 <= i < |frames| && Quit in frames[i].events
    ensures r == Crashed ==> g.meter.record.Unreadable?
    ensures r.Running? && r.state.meter.record.Unreadable? ==> g.meter.record.Unreadable?
    decreases |frames|
  {
    if frames == [] then Running(g)
    else
      match Tick(c, g, frames[0])
      case Running(g1) => RunFrom(c, g1, frames[1..])
      case other => other
  }
}
