/**
 * GameLoop as the object it is: the energy bar, the phase flags, the
 * clock and best-time fields, and the registry of sprites, all updated in
 * place. The record file is a field standing for best_score.txt.
 */
module Loop {
  import opened Wrappers
  import opened Geometry
  import opened Projectiles
  import opened Groups
  import opened Energy
  import opened Game
  import Flyer

  class GameLoop {
    const config: Config
    const groups: Registry
    var bar: real
    var first: bool
    var second: bool
    var victory: bool
    var startTime: int
    var finalTime: int
    var bestTime: int
    var record: Record

    function State(): GameState
      reads this, groups, groups.runner, groups.flyer
    {
      GameState(Meter(bar, Flags(first, second, victory), finalTime, bestTime, record),
                startTime, groups.State())
    }

    /** __init__: the game begins in phase one with the bar at 100. */
    constructor (config: Config, record: Record)
      ensures this.config == config
      ensures State() == Initial(config, record)
      ensures fresh(groups) && fresh(groups.runner) && fresh(groups.flyer)
    {
      this.config := config;
      groups := new Registry();
      bar := START_BAR;
      first, second, victory := true, false, false;
      startTime, finalTime, bestTime := 0, 0, 0;
      this.record := record;
    }

    /** bar_progress, with the clock read at `now`; false when reading the record raised. */
    method BarProgress(now: int) returns (ok: bool)
      modifies this
      ensures ok <==> Progress(old(State()).meter, Elapsed(old(State()), now)).Some?
      ensures ok ==> State() == old(State()).(meter := Progress(old(State()).meter, Elapsed(old(State()), now)).value)
    {
      bar := bar - DECAY;
      if bar <= 0.0 {
        finalTime := (now - startTime) / 1000;
        first := false;
        second := false;
      } else if bar >= FULL {
        bar := FULL;
        finalTime := (now - startTime) / 1000;
        match record {
          case Unreadable =>
            return false;
          case Empty =>
            record := Stored(finalTime);
            bestTime := finalTime;
          case Stored(n) =>
            if n < finalTime {
              bestTime := n;
            } else {
              record := Stored(finalTime);
              bestTime := finalTime;
            }
        }
        second := false;
        victory := true;
      }
      return true;
    }

    /** draw_retry_button: a click inside the button restarts the game. */
    method DrawRetryButton(f: Frame)
      modifies this, groups, groups.runner, groups.flyer
      ensures State() == RetryTick(config, old(State()), f)
    {
      if RETRY_BUTTON.CollidePoint(f.pointerX, f.pointerY) && f.mousePressed {
        startTime := f.now;
        bar := START_BAR;
        groups.EmptyOrbs();
        groups.EmptyFireballs();
        groups.runner.Reset();
        groups.flyer.Reset();
        first := true;
        if config.variant == Current {
          victory := false;
        }
      }
    }

    /** The phase-one handlers for one event: the attack click and the orb timer. */
    method OnPhaseOneEvent(e: Event)
      modifies this, groups
      ensures State() == PhaseOneEvent(config, old(State()), e)
    {
      if e == MouseDown {
        ghost var g := State();
        var hits := groups.CollisionRunnerOrb();
        if hits != [] {
          bar := bar + ORB_BONUS;
        }
        ClickScore(config, g, bar);
      }
      if e.OrbTimer? {
        groups.AddOrb(SpawnOrb(1300, 1500, 250, 475, e.dx, e.dy, config.orbWidth, config.orbHeight));
      }
    }

    /** The phase-two handlers for one event: the orb and fireball timers. */
    method OnPhaseTwoEvent(e: Event)
      modifies groups
      ensures State() == PhaseTwoEvent(config, old(State()), e)
    {
      if e.OrbTimer? {
        groups.AddOrb(SpawnOrb(1500, 1700, 200, 600, e.dx, e.dy, config.orbWidth, config.orbHeight));
      }
      if e.FireballTimer? {
        groups.AddFireball(SpawnFireball(e.dx, e.dy));
      }
    }

    /** The body of the event loop for one event; true when it is a quit event. */
    method HandleEvent(e: Event) returns (quit: bool)
      modifies this, groups
      ensures quit <==> e == Quit
      ensures !quit ==> State() == OnEvent(config, old(State()), e)
    {
      if e == Quit {
        return true;
      }
      if first {
        OnPhaseOneEvent(e);
      }
      if second {
        OnPhaseTwoEvent(e);
      }
      return false;
    }

    /** `for event in pygame.event.get()`: handle the queue in order, stopping at a quit event. */
    method HandleEvents(events: seq<Event>) returns (quit: bool)
      modifies this, groups
      ensures quit <==> Quit in events
      ensures !quit ==> Some(State()) == Drain(config, old(State()), events)
    {
      var i := 0;
      while i < |events|
        invariant 0 <= i <= |events|
        invariant Quit !in events[..i]
        invariant Drain(config, old(State()), events) == Drain(config, State(), events[i..])
      {
        assert events[i..][0] == events[i] && events[i..][1..] == events[i + 1..];
        quit := HandleEvent(events[i]);
        if quit {
          return;
        }
        assert events[..i + 1] == events[..i] + [events[i]];
        i := i + 1;
      }
      assert events[..i] == events;
      return false;
    }

    /** The phase-one branch of draw_phases. */
    method PhaseOne(f: Frame) returns (ok: bool)
      modifies this, groups, groups.runner
      ensures ok <==> PhaseOneTick(config, old(State()), f).Some?
      ensures ok ==> State() == PhaseOneTick(config, old(State()), f).value
    {
      ghost var g := State();
      if bar >= PHASE_TWO_AT {
        groups.EmptyOrbs();
        first := false;
        second := true;
      }
      ghost var g1 := State();
      assert g1 == CheckThreshold(g);
      ok := BarProgress(f.now);
      if !ok {
        return;
      }
      ghost var m := Progress(g1.meter, Elapsed(g1, f.now)).value;
      match config.variant {
        case Current => groups.runner.Update(f.keys, f.mousePressed);
        case Legacy => groups.runner.LegacyUpdate(f.keys, f.mousePressed);
      }
      groups.UpdateOrbs(PHASE_ONE_ORB_SPEED);
      assert State() == PhaseOneMoves(config, g1, f, m);
    }

    /** The two collision queries at the end of the phase-two branch, and their score. */
    method Collide()
      modifies this, groups
      ensures State() == Game.Collide(old(State()).meter, old(State()).startTime, old(State()).world)
    {
      ghost var g := State();
      var orbHits := groups.CollisionFlyerOrb();
      if orbHits != [] {
        bar := bar + ORB_BONUS;
      }
      var fireballHits := groups.CollisionFlyerFireball();
      if fireballHits != [] {
        bar := bar - FIREBALL_PENALTY;
      }
      CollideScore(g.meter, g.startTime, g.world, bar);
    }

    /** The phase-two branch of draw_phases. */
    method PhaseTwo(f: Frame) returns (ok: bool)
      modifies this, groups, groups.flyer
      ensures ok <==> PhaseTwoTick(config, old(State()), f).Some?
      ensures ok ==> State() == PhaseTwoTick(config, old(State()), f).value
    {
      ok := BarProgress(f.now);
      if !ok {
        return;
      }
      groups.flyer.Update(f.keys);
      groups.UpdateOrbs(PHASE_TWO_ORB_SPEED);
      groups.UpdateFireballs();
      Collide();
    }

    /** draw_phases: one branch, chosen by the flags; false when bar_progress raised. */
    method DrawPhases(f: Frame) returns (ok: bool)
      modifies this, groups, groups.runner, groups.flyer
      ensures ok <==> Game.DrawPhases(config, old(State()), f).Some?
      ensures ok ==> State() == Game.DrawPhases(config, old(State()), f).value
    {
      if first {
        ok := PhaseOne(f);
      } else if second {
        ok := PhaseTwo(f);
      } else {
        DrawRetryButton(f);
        ok := true;
      }
    }

    /** One pass of the `while True` loop. */
    method Step(f: Frame) returns (o: Outcome)
      modifies this, groups, groups.runner, groups.flyer
      ensures o == Tick(config, old(State()), f)
      ensures o.Running? ==> o.state == State()
    {
      var quit := HandleEvents(f.events);
      if quit {
        return Exited;
      }
      var ok := DrawPhases(f);
      if !ok {
        return Crashed;
      }
      return Running(State());
    }

    /** run: the loop over the given ticks, until a quit event or an exception ends it. */
    method Run(frames: seq<Frame>) returns (o: Outcome)
      modifies this, groups, groups.runner, groups.flyer
      ensures o == RunFrom(config, old(State()), frames)
      ensures o.Running? ==> o.state == State()
    {
      var i := 0;
      while i < |frames|
        invariant 0 <= i <= |frames|
        invariant RunFrom(config, old(State()), frames) == RunFrom(config, State(), frames[i..])
      {
        assert frames[i..][0] == frames[i] && frames[i..][1..] == frames[i + 1..];
        o := Step(frames[i]);
        if !o.Running? {
          return;
        }
        i := i + 1;
      }
      return Running(State());
    }
  }
}
