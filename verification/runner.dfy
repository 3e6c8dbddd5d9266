/**
 * The phase-one player character (CharacterOne): a runner with a jump
 * impulse, gravity, a floor at y = 605, an attack latch set by the mouse
 * and three animation tracks chosen by priority.
 */
module Runner {
  import opened Geometry
  import opened Cursor
  import opened Controls

  /** The rectangle is that of the first run frame: 42 x 42 pixels scaled by 4. */
  const WIDTH: int := 168
  const HEIGHT: int := 168
  /** The ground line: the rectangle's bottom never ends a move below it. */
  const GROUND: int := 605
  /** The start position is given as the rectangle's midbottom, (90, GROUND). */
  const START_X: int := 90
  const JUMP_IMPULSE: real := -25.0
  const GRAVITY: real := 1.0
  const RUN_ACCEL: real := 0.25

  datatype Track = Run | Jump | Attack

  function TrackLength(t: Track): nat {
    match t
    case Run => 6
    case Jump => 8
    case Attack => 6
  }

  function TrackStep(t: Track): real {
    match t
    case Run => 0.3
    case Jump => 0.1
    case Attack => 0.2
  }

  /**
   * Everything the runner changes from tick to tick: the rectangle's
   * top-left corner, the velocity accumulator `coords_change`, the two
   * animation cursors (the run and jump tracks share `frameIndex`), the
   * attack latch, and the frame the animation last chose.
   */
  datatype RunnerState = RunnerState(
    x: int, y: int,
    vx: real, vy: real,
    frameIndex: Cursor, attackFrameIndex: Cursor,
    leftClicked: bool,
    track: Track, image: nat)
  {
    function Bounds(): Rect { Rect(x, y, WIDTH, HEIGHT) }
    function Bottom(): int { y + HEIGHT }

    /** The cursors stay below their longest track and the frame shown exists. */
    predicate Valid() {
      frameIndex < 8.0 && attackFrameIndex < 6.0 && image < TrackLength(track)
    }
  }

  const INITIAL: RunnerState :=
    RunnerState(START_X - WIDTH / 2, GROUND - HEIGHT, 0.0, 0.0, 0.0, 0.0, false, Run, 0)

  /**
   * Input sampling: space on the ground sets the jump impulse, `d` and `a`
   * nudge the horizontal velocity, no key at all stops it, and the primary
   * mouse button latches the attack.
   */
  function AfterInput(s: RunnerState, keys: Keys, mousePressed: bool): (r: RunnerState)
    ensures keys.space && s.Bottom() >= GROUND ==> r.vy == JUMP_IMPULSE
    ensures !(keys.space && s.Bottom() >= GROUND) ==> r.vy == s.vy
    ensures !keys.AnyPressed() ==> r.vx == 0.0
    ensures keys.AnyPressed() && keys.a == keys.d ==> r.vx == s.vx
    ensures keys.AnyPressed() && keys.d && !keys.a ==> r.vx == s.vx + RUN_ACCEL
    ensures keys.AnyPressed() && keys.a && !keys.d ==> r.vx == s.vx - RUN_ACCEL
    ensures r.leftClicked <==> s.leftClicked || mousePressed
    ensures r.(vx := s.vx, vy := s.vy, leftClicked := s.leftClicked) == s
  {
    var vy := if keys.space && s.Bottom() >= GROUND then JUMP_IMPULSE else s.vy;
    var vx := s.vx + (if keys.d then RUN_ACCEL else 0.0) - (if keys.a then RUN_ACCEL else 0.0);
    s.(vx := if keys.AnyPressed() then vx else 0.0,
       vy := vy,
       leftClicked := s.leftClicked || mousePressed)
  }

  /**
   * The horizontal clamp that opens apply_movement: a first-match chain,
   * the left edge before the right one.
   */
  function ClampX(x: int): (cx: int)
    ensures 0 <= cx <= SCREEN_WIDTH - WIDTH
    ensures 0 <= x <= SCREEN_WIDTH - WIDTH ==> cx == x
    ensures x < 0 ==> cx == 0
    ensures x + WIDTH > SCREEN_WIDTH ==> cx == SCREEN_WIDTH - WIDTH
  {
    if x < 0 then 0
    else if x + WIDTH > SCREEN_WIDTH then SCREEN_WIDTH - WIDTH
    else x
  }

  /** Gravity, the vertical move by the truncated velocity, then the floor. */
  function Fall(s: RunnerState): (r: RunnerState)
    ensures r.Bottom() <= GROUND
    ensures r.vy == s.vy + GRAVITY
    ensures r.y == Min(s.y + Trunc(s.vy + GRAVITY), GROUND - HEIGHT)
    ensures r.(y := s.y, vy := s.vy) == s
  {
    var vy := s.vy + GRAVITY;
    var y := s.y + Trunc(vy);
    s.(vy := vy, y := Min(y + HEIGHT, GROUND) - HEIGHT)
  }

  /**
   * apply_movement: the horizontal clamp, gravity, the vertical move, the
   * floor, and last the horizontal move. The clamp runs before the move,
   * so only the rectangle's position before the move is known to be on
   * screen.
   */
  function AfterMovement(s: RunnerState): (r: RunnerState)
    ensures r.Bottom() <= GROUND
    ensures r.vy == s.vy + GRAVITY
    ensures r.y == Min(s.y + Trunc(s.vy + GRAVITY), GROUND - HEIGHT)
    ensures r.x == ClampX(s.x) + Trunc(s.vx)
    ensures 0 <= r.x - Trunc(s.vx) <= SCREEN_WIDTH - WIDTH
    ensures 0 <= s.x <= SCREEN_WIDTH - WIDTH ==> r.x == s.x + Trunc(s.vx)
    ensures r.(x := s.x, y := s.y, vy := s.vy) == s
  {
    var f := Fall(s.(x := ClampX(s.x)));
    f.(x := f.x + Trunc(s.vx))
  }

  /** The older apply_gravity of main.py: the same without the horizontal clamp. */
  function AfterGravity(s: RunnerState): (r: RunnerState)
    ensures r.Bottom() <= GROUND
    ensures r.vy == s.vy + GRAVITY
    ensures r.x == s.x + Trunc(s.vx)
    ensures r.y == Min(s.y + Trunc(s.vy + GRAVITY), GROUND - HEIGHT)
    ensures r.(x := s.x, y := s.y, vy := s.vy) == s
  {
    var f := Fall(s);
    f.(x := f.x + Trunc(s.vx))
  }

  /** On screen the two versions of the move agree. */
  lemma GravityAgreesOnScreen(s: RunnerState)
    requires 0 <= s.x <= SCREEN_WIDTH - WIDTH
    ensures AfterGravity(s) == AfterMovement(s)
  {}

  /** Off screen they differ: main.py's runner keeps walking off the left edge. */
  lemma GravityLeavesScreen()
    ensures var s := INITIAL.(x := -10, vx := -3.0);
            AfterGravity(s).x == -13 && AfterMovement(s).x == -3
  {}

  /**
   * The animation step: the attack track while the latch is set, else the
   * jump track while airborne, else the run track. Completing the attack
   * track clears the latch.
   */
  function AfterAnimation(s: RunnerState): (r: RunnerState)
    ensures r.track == (if s.leftClicked then Attack else if s.Bottom() < GROUND then Jump else Run)
    ensures r.image < TrackLength(r.track)
    ensures s.leftClicked ==>
      && r.attackFrameIndex == Advance(s.attackFrameIndex, TrackStep(Attack), TrackLength(Attack))
      && r.frameIndex == s.frameIndex
      && r.image == FrameAt(r.attackFrameIndex, TrackLength(Attack))
      && (r.leftClicked <==> s.attackFrameIndex + TrackStep(Attack) < TrackLength(Attack) as real)
    ensures !s.leftClicked ==>
      && r.frameIndex == Advance(s.frameIndex, TrackStep(r.track), TrackLength(r.track))
      && r.attackFrameIndex == s.attackFrameIndex
      && r.image == FrameAt(r.frameIndex, TrackLength(r.track))
      && !r.leftClicked
    ensures s.Valid() ==> r.Valid()
    ensures r.(frameIndex := s.frameIndex, attackFrameIndex := s.attackFrameIndex,
               leftClicked := s.leftClicked, track := s.track, image := s.image) == s
  {
    if s.leftClicked then
      var len := TrackLength(Attack);
      var c := Advance(s.attackFrameIndex, TrackStep(Attack), len);
      s.(attackFrameIndex := c,
         leftClicked := s.attackFrameIndex + TrackStep(Attack) < len as real,
         track := Attack, image := FrameAt(c, len))
    else
      var t := if s.Bottom() < GROUND then Jump else Run;
      var c := Advance(s.frameIndex, TrackStep(t), TrackLength(t));
      s.(frameIndex := c, track := t, image := FrameAt(c, TrackLength(t)))
  }

  /** reset: only the position goes back to the start, midbottom (90, 605). */
  function AfterReset(s: RunnerState): (r: RunnerState)
    ensures r.x + WIDTH / 2 == START_X && r.Bottom() == GROUND
    ensures r.(x := s.x, y := s.y) == s
  {
    s.(x := START_X - WIDTH / 2, y := GROUND - HEIGHT)
  }

  /**
   * update: input, movement, animation. The attack track is shown exactly
   * when the latch was set or the mouse is pressed, and the rectangle ends
   * on or above the ground.
   */
  function AfterUpdate(s: RunnerState, keys: Keys, mousePressed: bool): (r: RunnerState)
    ensures r.Bottom() <= GROUND
    ensures r.track == Attack <==> s.leftClicked || mousePressed
    ensures s.Valid() ==> r.Valid()
  {
    AfterAnimation(AfterMovement(AfterInput(s, keys, mousePressed)))
  }

  /** update in main.py, whose move is apply_gravity. */
  function AfterLegacyUpdate(s: RunnerState, keys: Keys, mousePressed: bool): (r: RunnerState)
    ensures r.Bottom() <= GROUND
    ensures r.track == Attack <==> s.leftClicked || mousePressed
    ensures s.Valid() ==> r.Valid()
  {
    AfterAnimation(AfterGravity(AfterInput(s, keys, mousePressed)))
  }

  /** The runner sprite, updated in place every phase-one tick. */
  class CharacterOne {
    var x: int
    var y: int
    var vx: real
    var vy: real
    var frameIndex: Cursor
    var attackFrameIndex: Cursor
    var leftClicked: bool
    var track: Track
    var image: nat

    function State(): RunnerState
      reads this
    {
      RunnerState(x, y, vx, vy, frameIndex, attackFrameIndex, leftClicked, track, image)
    }

    constructor ()
      ensures State() == INITIAL
    {
      x, y := START_X - WIDTH / 2, GROUND - HEIGHT;
      vx, vy := 0.0, 0.0;
      frameIndex, attackFrameIndex := 0.0, 0.0;
      leftClicked := false;
      track, image := Run, 0;
    }

    method Input(keys: Keys, mousePressed: bool)
      modifies this
      ensures State() == AfterInput(old(State()), keys, mousePressed)
    {
      if keys.space && y + HEIGHT >= GROUND {
        vy := JUMP_IMPULSE;
      }
      if keys.d {
        vx := vx + RUN_ACCEL;
      }
      if keys.a {
        vx := vx - RUN_ACCEL;
      }
      if !keys.AnyPressed() {
        vx := 0.0;
      }
      if mousePressed {
        leftClicked := true;
      }
    }

    method ApplyMovement()
      modifies this
      ensures State() == AfterMovement(old(State()))
    {
      if x < 0 {
        x := 0;
      } else if x + WIDTH > SCREEN_WIDTH {
        x := SCREEN_WIDTH - WIDTH;
      }
      vy := vy + GRAVITY;
      y := y + Trunc(vy);
      y := Min(y + HEIGHT, GROUND) - HEIGHT;
      x := x + Trunc(vx);
    }

    /** main.py's apply_gravity. */
    method ApplyGravity()
      modifies this
      ensures State() == AfterGravity(old(State()))
    {
      vy := vy + GRAVITY;
      y := y + Trunc(vy);
      y := Min(y + HEIGHT, GROUND) - HEIGHT;
      x := x + Trunc(vx);
    }

    method Animation()
      modifies this
      ensures State() == AfterAnimation(old(State()))
    {
      if leftClicked {
        attackFrameIndex := attackFrameIndex + TrackStep(Attack);
        if attackFrameIndex >= TrackLength(Attack) as real {
          attackFrameIndex := 0.0;
          leftClicked := false;
        }
        track := Attack;
        image := FrameAt(attackFrameIndex, TrackLength(Attack));
      } else if y + HEIGHT < GROUND {
        frameIndex := frameIndex + TrackStep(Jump);
        if frameIndex >= TrackLength(Jump) as real {
          frameIndex := 0.0;
        }
        track := Jump;
        image := FrameAt(frameIndex, TrackLength(Jump));
      } else {
        frameIndex := frameIndex + TrackStep(Run);
        if frameIndex >= TrackLength(Run) as real {
          frameIndex := 0.0;
        }
        track := Run;
        image := FrameAt(frameIndex, TrackLength(Run));
      }
    }

    method Reset()
      modifies this
      ensures State() == AfterReset(old(State()))
    {
      x, y := START_X - WIDTH / 2, GROUND - HEIGHT;
    }

    method Update(keys: Keys, mousePressed: bool)
      modifies this
      ensures State() == AfterUpdate(old(State()), keys, mousePressed)
    {
      Input(keys, mousePressed);
      ApplyMovement();
      Animation();
    }

    /** update as main.py has it. */
    method LegacyUpdate(keys: Keys, mousePressed: bool)
      modifies this
      ensures State() == AfterLegacyUpdate(old(State()), keys, mousePressed)
    {
      Input(keys, mousePressed);
      ApplyGravity();
      Animation();
    }
  }
}
