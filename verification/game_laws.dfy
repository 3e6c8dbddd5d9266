/**
 * What whole ticks and runs of GameLoop do: the invariant every tick
 * keeps, how the bar runs out, how the phases follow one another, and
 * what the retry button restores in each version.
 */
module GameLaws {
  import opened Wrappers
  import opened Geometry
  import opened Controls
  import opened Projectiles
  import opened Groups
  import opened Energy
  import opened Game
  import Runner
  import Flyer

  /** Survivors of a group of one kind are of that kind, with fireball cursors in range. */
  lemma SurvivorsKeepKind(g: seq<Projectile>, speed: int)
    ensures (forall p | p in g :: p.Orb?) ==> (forall q | q in Survivors(g, speed) :: q.Orb?)
    ensures (forall p | p in g :: p.Fireball?) ==>
      (forall q | q in Survivors(g, speed) :: q.Fireball? && q.frameIndex < FIREBALL_FRAMES as real)
  {
    forall q | q in Survivors(g, speed)
      ensures (forall p | p in g :: p.Orb?) ==> q.Orb?
      ensures (forall p | p in g :: p.Fireball?) ==> q.Fireball? && q.frameIndex < FIREBALL_FRAMES as real
    {
      var i :| 0 <= i < |g| && q == Updated(g[i], speed);
      assert g[i] in g;
    }
  }

  /** The phase-one branch keeps the registry valid and, in src/, the flags exclusive. */
  lemma PhaseOneKeepsValid(c: Config, g: GameState, f: Frame)
    requires GameValid(c, g) && g.meter.flags.Phase() == Phase1
    requires PhaseOneTick(c, g, f).Some?
    ensures GameValid(c, PhaseOneTick(c, g, f).value)
  {
    SurvivorsKeepKind(g.world.orbs, PHASE_ONE_ORB_SPEED);
  }

  /** The phase-two branch keeps the registry valid and, in src/, the flags exclusive. */
  lemma PhaseTwoKeepsValid(c: Config, g: GameState, f: Frame)
    requires GameValid(c, g) && g.meter.flags.Phase() == Phase2
    requires PhaseTwoTick(c, g, f).Some?
    ensures GameValid(c, PhaseTwoTick(c, g, f).value)
  {
    var w := g.world;
    var orbs := Survivors(w.orbs, PHASE_TWO_ORB_SPEED);
    var fireballs := Survivors(w.fireballs, 0);
    SurvivorsKeepKind(w.orbs, PHASE_TWO_ORB_SPEED);
    SurvivorsKeepKind(w.fireballs, 0);
    var box := Flyer.AfterUpdate(w.flyer, f.keys).Bounds();
    assert forall p | p in Misses(box, orbs) :: p in orbs;
    assert forall p | p in Misses(box, fireballs) :: p in fireballs;
  }

  /** The drawn phase keeps the registry valid, and in src/ keeps the flags exclusive. */
  lemma DrawPhasesKeepsValid(c: Config, g: GameState, f: Frame)
    requires GameValid(c, g)
    requires DrawPhases(c, g, f).Some?
    ensures GameValid(c, DrawPhases(c, g, f).value)
  {
    match g.meter.flags.Phase()
    case Phase1 => PhaseOneKeepsValid(c, g, f);
    case Phase2 => PhaseTwoKeepsValid(c, g, f);
    case _ =>
  }

  /** The invariant of the loop: every tick that keeps running keeps GameValid. */
  lemma TickKeepsValid(c: Config, g: GameState, f: Frame)
    requires GameValid(c, g)
    requires Tick(c, g, f).Running?
    ensures GameValid(c, Tick(c, g, f).state)
  {
    var g1 := Drain(c, g, f.events).value;
    assert GameValid(c, g1);
    DrawPhasesKeepsValid(c, g1, f);
  }

  /** Every state a run reaches from a valid state is valid. */
  lemma {:induction false} RunKeepsValid(c: Config, g: GameState, frames: seq<Frame>)
    requires GameValid(c, g)
    requires RunFrom(c, g, frames).Running?
    ensures GameValid(c, RunFrom(c, g, frames).state)
    decreases |frames|
  {
    if frames != [] {
      TickKeepsValid(c, g, frames[0]);
      RunKeepsValid(c, Tick(c, g, frames[0]).state, frames[1..]);
    }
  }

  /** The game starts valid. */
  lemma InitialValid(c: Config, record: Record)
    ensures GameValid(c, Initial(c, record))
    ensures Initial(c, record).meter.flags.Phase() == Phase1
  {}

  /** Running a + b is running a, then b from where a stopped. */
  lemma {:induction false} RunFromAppend(c: Config, g: GameState, a: seq<Frame>, b: seq<Frame>)
    ensures RunFrom(c, g, a + b) ==
      match RunFrom(c, g, a)
      case Running(g1) => RunFrom(c, g1, b)
      case other => other
    decreases |a|
  {
    if a == [] {
      assert a + b == b;
    } else {
      assert (a + b)[0] == a[0];
      assert (a + b)[1..] == a[1..] + b;
      match Tick(c, g, a[0])
      case Running(g1) => RunFromAppend(c, g1, a[1..], b);
      case _ =>
    }
  }

  /** Ticks with an empty event queue. */
  predicate Quiet(frames: seq<Frame>) {
    forall i | 0 <= i < |frames| :: frames[i].events == []
  }

  /**
   * In phase one below the phase-two threshold, ticks without events only
   * drain the bar, a quarter per tick, while it stays above zero.
   */
  lemma {:induction false} QuietPhaseOneDecays(c: Config, g: GameState, frames: seq<Frame>)
    requires g.meter.flags.Phase() == Phase1 && g.meter.bar < PHASE_TWO_AT
    requires Quiet(frames)
    requires g.meter.bar - |frames| as real * DECAY > 0.0
    ensures RunFrom(c, g, frames).Running?
    ensures var e := RunFrom(c, g, frames).state;
      && e.meter == g.meter.(bar := g.meter.bar - |frames| as real * DECAY)
      && e.startTime == g.startTime
    decreases |frames|
  {
    if frames != [] {
      var g1 := Tick(c, g, frames[0]).state;
      assert g1.meter == g.meter.(bar := g.meter.bar - DECAY);
      assert Quiet(frames[1..]) by {
        forall i | 0 <= i < |frames[1..]| ensures frames[1..][i].events == [] {
          assert frames[1..][i] == frames[i + 1];
        }
      }
      QuietPhaseOneDecays(c, g1, frames[1..]);
    }
  }

  /**
   * From the start of phase one with the bar at 100 and no clicks, the
   * game is still running in phase one after 399 ticks and over at the
   * 400th, with the bar at 0 and the clock stopped at that tick.
   */
  lemma FourHundredQuietTicksEndTheGame(c: Config, g: GameState, frames: seq<Frame>)
    requires g.meter.flags.Phase() == Phase1 && g.meter.bar == START_BAR
    requires |frames| == 400 && Quiet(frames)
    ensures RunFrom(c, g, frames[..399]).Running?
    ensures RunFrom(c, g, frames[..399]).state.meter.flags == g.meter.flags
    ensures RunFrom(c, g, frames).Running?
    ensures var e := RunFrom(c, g, frames).state;
      && e.meter.bar == 0.0
      && e.meter.flags == Flags(false, false, g.meter.flags.victory)
      && e.meter.finalTime == Elapsed(g, frames[399].now)
  {
    var a, b := frames[..399], frames[399..];
    assert frames == a + b;
    assert Quiet(a) by {
      forall i | 0 <= i < |a| ensures a[i].events == [] {
        assert a[i] == frames[i];
      }
    }
    QuietPhaseOneDecays(c, g, a);
    RunFromAppend(c, g, a, b);
    var g1 := RunFrom(c, g, a).state;
    assert g1.meter.bar == DECAY;
    assert b == [frames[399]] && b[1..] == [];
    assert frames[399].events == [];
  }

  /**
   * src/: a bar at or below one quarter in either play phase, with no
   * event to refill it, ends the game at this tick, and the game-over
   * screen is what follows.
   */
  lemma DepletionIsGameOver(c: Config, g: GameState, f: Frame)
    requires c.variant == Current && GameValid(c, g)
    requires g.meter.flags.Phase() in {Phase1, Phase2}
    requires g.meter.bar <= DECAY && f.events == []
    ensures Tick(c, g, f).Running?
    ensures Tick(c, g, f).state.meter.flags.Phase() == GameOver
  {}

  /**
   * Once the bar passes 500 in phase two the game is won, unless the
   * record cannot be read, in which case the program stops.
   */
  lemma FullBarWins(c: Config, g: GameState, f: Frame)
    requires g.meter.flags.Phase() == Phase2 && Quit !in f.events
    requires g.meter.bar - DECAY >= FULL
    ensures g.meter.record.Unreadable? <==> Tick(c, g, f) == Crashed
    ensures !g.meter.record.Unreadable? ==>
      && Tick(c, g, f).Running?
      && Tick(c, g, f).state.meter.flags.Phase() == Victory
      && Tick(c, g, f).state.meter.finalTime == Elapsed(g, f.now)
  {
    var g1 := Drain(c, g, f.events).value;
    assert g1.meter == g.meter && g1.startTime == g.startTime;
  }

  /** An idle flyer at its start position stays where it is: it starts on screen and its velocity drops to zero. */
  lemma IdleFlyerStays()
    ensures Flyer.AfterUpdate(Flyer.INITIAL, NO_KEYS).Bounds() == Rect(29, 302, 182, 98)
  {}

  /** An orb 20 to the right of the idle flyer moves onto it in one phase-two update. */
  lemma OrbReachesIdleFlyer()
    ensures Survivors([Orb(Rect(49, 302, 10, 10))], PHASE_TWO_ORB_SPEED) == [Orb(Rect(29, 302, 10, 10))]
    ensures Overlaps(Rect(29, 302, 182, 98), Rect(29, 302, 10, 10))
  {}

  /** A fireball 25 to the right of the idle flyer moves onto it in one update. */
  lemma FireballReachesIdleFlyer()
    ensures var kept := Survivors([Fireball(Rect(54, 302, FIREBALL_WIDTH, FIREBALL_HEIGHT), 0.0)], 0);
            |kept| == 1 && kept[0].rect == Rect(29, 302, FIREBALL_WIDTH, FIREBALL_HEIGHT)
    ensures Overlaps(Rect(29, 302, 182, 98), Rect(29, 302, FIREBALL_WIDTH, FIREBALL_HEIGHT))
  {}

  /**
   * The orb bonus is scored after bar_progress has clamped the bar to 500,
   * so a winning tick can end with the bar above 500.
   */
  lemma PhaseTwoCanOvershoot(c: Config, now: int)
    ensures var g := GameState(Meter(500.25, Flags(false, true, false), 0, 0, Empty), 0,
                               World(Runner.INITIAL, Flyer.INITIAL, [Orb(Rect(49, 302, 10, 10))], []));
            var r := PhaseTwoTick(c, g, Frame([], NO_KEYS, false, 0, 0, now));
            r.Some? && r.value.meter.bar == 530.0 && r.value.meter.flags.Phase() == Victory
  {
    var g := GameState(Meter(500.25, Flags(false, true, false), 0, 0, Empty), 0,
                       World(Runner.INITIAL, Flyer.INITIAL, [Orb(Rect(49, 302, 10, 10))], []));
    IdleFlyerStays();
    OrbReachesIdleFlyer();
    var orbs := Survivors(g.world.orbs, PHASE_TWO_ORB_SPEED);
    assert orbs[0] in orbs;
    assert Survivors(g.world.fireballs, 0) == [];
  }

  /**
   * The fireball penalty is taken after bar_progress has ended the game at
   * 0, so a losing tick can end with the bar below 0.
   */
  lemma PhaseTwoCanUndershoot(c: Config, now: int)
    ensures var g := GameState(Meter(0.25, Flags(false, true, false), 0, 0, Empty), 0,
                               World(Runner.INITIAL, Flyer.INITIAL, [],
                                     [Fireball(Rect(54, 302, FIREBALL_WIDTH, FIREBALL_HEIGHT), 0.0)]));
            var r := PhaseTwoTick(c, g, Frame([], NO_KEYS, false, 0, 0, now));
            r.Some? && r.value.meter.bar == -20.0 && r.value.meter.flags.Phase() == GameOver
  {
    var g := GameState(Meter(0.25, Flags(false, true, false), 0, 0, Empty), 0,
                       World(Runner.INITIAL, Flyer.INITIAL, [],
                             [Fireball(Rect(54, 302, FIREBALL_WIDTH, FIREBALL_HEIGHT), 0.0)]));
    IdleFlyerStays();
    FireballReachesIdleFlyer();
    var fireballs := Survivors(g.world.fireballs, 0);
    assert fireballs[0] in fireballs;
    assert Survivors(g.world.orbs, PHASE_TWO_ORB_SPEED) == [];
  }

  /**
   * At 250 or more in phase one, with the bar not yet full, the next tick
   * without events is in phase two with no orbs left.
   */
  lemma ThresholdStartsPhaseTwo(c: Config, g: GameState, f: Frame)
    requires g.meter.flags.Phase() == Phase1
    requires PHASE_TWO_AT <= g.meter.bar && g.meter.bar - DECAY < FULL
    requires f.events == []
    ensures Tick(c, g, f).Running?
    ensures Tick(c, g, f).state.meter.flags.Phase() == Phase2
    ensures Tick(c, g, f).state.world.orbs == []
    ensures Tick(c, g, f).state.meter.bar == g.meter.bar - DECAY
  {}

  /** The victory and game-over screens stay until the retry button is clicked. */
  lemma EndScreensWait(c: Config, g: GameState, f: Frame)
    requires g.meter.flags.Phase() in {Victory, GameOver}
    requires Quit !in f.events && !RetryClicked(f)
    ensures Tick(c, g, f) == Running(g)
  {
    assert Drain(c, g, f.events) == Some(g) by {
      DrainIdle(c, g, f.events);
    }
  }

  /** With no play flag set, draining the queue changes nothing. */
  lemma {:induction false} DrainIdle(c: Config, g: GameState, events: seq<Event>)
    requires !g.meter.flags.first && !g.meter.flags.second
    requires Quit !in events
    ensures Drain(c, g, events) == Some(g)
    decreases |events|
  {
    if events != [] {
      assert OnEvent(c, g, events[0]) == g;
      DrainIdle(c, g, events[1..]);
    }
  }

  /**
   * The same run in both versions: a click on the retry button after the
   * game ended, then 400 ticks without events. The game restarts in phase
   * one and the bar runs out at the last tick; the flags left are the
   * victory flag as the retry left it.
   */
  lemma {:induction false} LossAfterRetry(c: Config, g: GameState, frames: seq<Frame>)
    requires g.meter.flags.Phase() in {Victory, GameOver}
    requires |frames| == 401 && Quiet(frames) && RetryClicked(frames[0])
    ensures RunFrom(c, g, frames).Running?
    ensures RunFrom(c, g, frames).state.meter.bar == 0.0
    ensures RunFrom(c, g, frames).state.meter.flags ==
      Flags(false, false, c.variant == Legacy && g.meter.flags.victory)
  {
    assert frames[0].events == [];
    var g1 := Tick(c, g, frames[0]).state;
    assert g1.meter.flags == RetryFlags(c.variant, g.meter.flags);
    assert Quiet(frames[1..]) by {
      forall i | 0 <= i < |frames[1..]| ensures frames[1..][i].events == [] {
        assert frames[1..][i] == frames[i + 1];
      }
    }
    FourHundredQuietTicksEndTheGame(c, g1, frames[1..]);
  }

  /**
   * main.py as written: after a win, retrying and then letting the bar run
   * out shows the victory screen again instead of the game-over screen.
   */
  lemma LegacyLossAfterWinShowsVictory(c: Config, g: GameState, frames: seq<Frame>)
    requires c.variant == Legacy && g.meter.flags.Phase() == Victory
    requires |frames| == 401 && Quiet(frames) && RetryClicked(frames[0])
    ensures RunFrom(c, g, frames).Running?
    ensures RunFrom(c, g, frames).state.meter.bar == 0.0
    ensures RunFrom(c, g, frames).state.meter.flags.Phase() == Victory
  {
    LossAfterRetry(c, g, frames);
  }

  /** src/: the same run ends on the game-over screen, whatever screen it started from. */
  lemma LossAfterRetryIsGameOver(c: Config, g: GameState, frames: seq<Frame>)
    requires c.variant == Current && g.meter.flags.Phase() in {Victory, GameOver}
    requires |frames| == 401 && Quiet(frames) && RetryClicked(frames[0])
    ensures RunFrom(c, g, frames).Running?
    ensures RunFrom(c, g, frames).state.meter.bar == 0.0
    ensures RunFrom(c, g, frames).state.meter.flags.Phase() == GameOver
  {
    LossAfterRetry(c, g, frames);
  }

  /** A quit event anywhere in a tick's queue ends the program at that tick. */
  lemma QuitExits(c: Config, g: GameState, f: Frame)
    requires Quit in f.events
    ensures Tick(c, g, f) == Exited
  {}
}
