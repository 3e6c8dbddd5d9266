/**
 * The phase-two player character (CharacterTwo): free four-way flight
 * without gravity, a one-edge-per-tick screen clamp and three animation
 * tracks chosen by the keys held.
 */
module Flyer {
  import opened Geometry
  import opened Cursor
  import opened Controls

  /** The rectangle is that of the first neutral frame: 52 x 28 pixels scaled by 3.5. */
  const WIDTH: int := 182
  const HEIGHT: int := 98
  /** The start position is given as the rectangle's midbottom, (120, 400). */
  const START_X: int := 120
  const START_BOTTOM: int := 400
  const FLY_ACCEL: real := 0.3

  datatype Track = Up | Down | Neutral

  function TrackLength(t: Track): nat {
    match t
    case Up => 4
    case Down => 4
    case Neutral => 3
  }

  function TrackStep(t: Track): real {
    match t
    case Up => 0.2
    case Down => 0.1
    case Neutral => 0.1
  }

  /**
   * Everything the flyer changes from tick to tick: the rectangle's
   * top-left corner, the velocity accumulator, the one animation cursor
   * all three tracks share, and the frame last chosen.
   */
  datatype FlyerState = FlyerState(
    x: int, y: int,
    vx: real, vy: real,
    frameIndex: Cursor,
    track: Track, image: nat)
  {
    function Bounds(): Rect { Rect(x, y, WIDTH, HEIGHT) }

    predicate Valid() { frameIndex < 4.0 && image < TrackLength(track) }
  }

  const INITIAL: FlyerState :=
    FlyerState(START_X - WIDTH / 2, START_BOTTOM - HEIGHT, 0.0, 0.0, 0.0, Neutral, 0)

  /**
   * Input sampling: each of `w`, `s`, `d`, `a` adds its signed step to its
   * axis, and no key at all stops both axes.
   */
  function AfterInput(s: FlyerState, keys: Keys): (r: FlyerState)
    ensures !keys.AnyPressed() ==> r.vx == 0.0 && r.vy == 0.0
    ensures keys.AnyPressed() ==>
      && r.vy == s.vy - (if keys.w then FLY_ACCEL else 0.0) + (if keys.s then FLY_ACCEL else 0.0)
      && r.vx == s.vx + (if keys.d then FLY_ACCEL else 0.0) - (if keys.a then FLY_ACCEL else 0.0)
    ensures r.(vx := s.vx, vy := s.vy) == s
  {
    if !keys.AnyPressed() then s.(vx := 0.0, vy := 0.0)
    else
      var vy := s.vy - (if keys.w then FLY_ACCEL else 0.0);
      var vy := vy + (if keys.s then FLY_ACCEL else 0.0);
      var vx := s.vx + (if keys.d then FLY_ACCEL else 0.0);
      var vx := vx - (if keys.a then FLY_ACCEL else 0.0);
      s.(vx := vx, vy := vy)
  }

  /** The screen edges in the order the clamp tests them. */
  datatype Edge = Inside | LeftEdge | RightEdge | BottomEdge | TopEdge

  /** The first edge, in the order left, right, bottom, top, that the rectangle crosses. */
  function FirstEdgeOut(b: Rect): Edge {
    if b.x < 0 then LeftEdge
    else if b.Right() > SCREEN_WIDTH then RightEdge
    else if b.Bottom() > SCREEN_HEIGHT then BottomEdge
    else if b.y < 0 then TopEdge
    else Inside
  }

  predicate OnScreen(b: Rect) {
    0 <= b.x && b.Right() <= SCREEN_WIDTH && 0 <= b.y && b.Bottom() <= SCREEN_HEIGHT
  }

  /**
   * The clamp that opens apply_movement: an if/elif chain, so only the
   * first edge crossed is corrected and at most one coordinate moves.
   */
  function ClampOnce(s: FlyerState): (r: FlyerState)
    ensures r.x == s.x || r.y == s.y
    ensures OnScreen(s.Bounds()) ==> r == s
    ensures FirstEdgeOut(s.Bounds()) == LeftEdge ==> r.x == 0
    ensures FirstEdgeOut(s.Bounds()) == RightEdge ==> r.Bounds().Right() == SCREEN_WIDTH
    ensures FirstEdgeOut(s.Bounds()) == BottomEdge ==> r.Bounds().Bottom() == SCREEN_HEIGHT
    ensures FirstEdgeOut(s.Bounds()) == TopEdge ==> r.y == 0
    ensures r.(x := s.x, y := s.y) == s
  {
    match FirstEdgeOut(s.Bounds())
    case LeftEdge => s.(x := 0)
    case RightEdge => s.(x := SCREEN_WIDTH - WIDTH)
    case BottomEdge => s.(y := SCREEN_HEIGHT - HEIGHT)
    case TopEdge => s.(y := 0)
    case Inside => s
  }

  /** Whatever the start, two passes of the clamp leave the rectangle on screen. */
  lemma ClampTwiceOnScreen(s: FlyerState)
    ensures OnScreen(ClampOnce(ClampOnce(s)).Bounds())
  {}

  /**
   * One pass is not enough: a rectangle beyond the left and the bottom
   * edges is only pulled back from the left one.
   */
  lemma ClampOnceMissesCorner()
    ensures var s := INITIAL.(x := -10, y := 700);
            var r := ClampOnce(s);
            r.x == 0 && r.y == 700 && !OnScreen(r.Bounds())
  {}

  /**
   * apply_movement: the clamp, then the move by the truncated velocities.
   * The clamp comes first, so a tick can end with the rectangle off screen.
   */
  function AfterMovement(s: FlyerState): (r: FlyerState)
    ensures var c := ClampOnce(s);
            r.x == c.x + Trunc(s.vx) && r.y == c.y + Trunc(s.vy)
    ensures r.(x := s.x, y := s.y) == s
  {
    var c := ClampOnce(s);
    c.(x := c.x + Trunc(s.vx), y := c.y + Trunc(s.vy))
  }

  /** A flyer at the left edge flying left ends the tick off screen. */
  lemma MovementCanLeaveScreen()
    ensures var s := INITIAL.(x := 0, vx := -5.0);
            OnScreen(s.Bounds()) && AfterMovement(s).x == -5
  {}

  /**
   * The animation step: the up track while `w` is held, else the down track
   * while `s` is held, else the neutral one; the shared cursor wraps at the
   * chosen track's length.
   */
  function AfterAnimation(s: FlyerState, keys: Keys): (r: FlyerState)
    ensures r.track == (if keys.w then Up else if keys.s then Down else Neutral)
    ensures r.frameIndex == Advance(s.frameIndex, TrackStep(r.track), TrackLength(r.track))
    ensures r.image == FrameAt(r.frameIndex, TrackLength(r.track))
    ensures r.image < TrackLength(r.track)
    ensures s.Valid() ==> r.Valid()
    ensures r.(frameIndex := s.frameIndex, track := s.track, image := s.image) == s
  {
    var t := if keys.w then Up else if keys.s then Down else Neutral;
    var c := Advance(s.frameIndex, TrackStep(t), TrackLength(t));
    s.(frameIndex := c, track := t, image := FrameAt(c, TrackLength(t)))
  }

  /** reset: only the position goes back to the start, midbottom (120, 400). */
  function AfterReset(s: FlyerState): (r: FlyerState)
    ensures r.x + WIDTH / 2 == START_X && r.Bounds().Bottom() == START_BOTTOM
    ensures r.(x := s.x, y := s.y) == s
  {
    s.(x := START_X - WIDTH / 2, y := START_BOTTOM - HEIGHT)
  }

  /** update: input, movement, animation. */
  function AfterUpdate(s: FlyerState, keys: Keys): (r: FlyerState)
    ensures !keys.AnyPressed() ==> r.vx == 0.0 && r.vy == 0.0
    ensures r.track == (if keys.w then Up else if keys.s then Down else Neutral)
    ensures s.Valid() ==> r.Valid()
  {
    AfterAnimation(AfterMovement(AfterInput(s, keys)), keys)
  }

  /** The flyer sprite, updated in place every phase-two tick. */
  class CharacterTwo {
    var x: int
    var y: int
    var vx: real
    var vy: real
    var frameIndex: Cursor
    var track: Track
    var image: nat

    function State(): FlyerState
      reads this
    {
      FlyerState(x, y, vx, vy, frameIndex, track, image)
    }

    constructor ()
      ensures State() == INITIAL
    {
      x, y := START_X - WIDTH / 2, START_BOTTOM - HEIGHT;
      vx, vy := 0.0, 0.0;
      frameIndex := 0.0;
      track, image := Neutral, 0;
    }

    method Input(keys: Keys)
      modifies this
      ensures State() == AfterInput(old(State()), keys)
    {
      if keys.w {
        vy := vy - FLY_ACCEL;
      }
      if keys.s {
        vy := vy + FLY_ACCEL;
      }
      if keys.d {
        vx := vx + FLY_ACCEL;
      }
      if keys.a {
        vx := vx - FLY_ACCEL;
      }
      if !keys.AnyPressed() {
        vx, vy := 0.0, 0.0;
      }
    }

    method ApplyMovement()
      modifies this
      ensures State() == AfterMovement(old(State()))
    {
      if x < 0 {
        x := 0;
      } else if x + WIDTH > SCREEN_WIDTH {
        x := SCREEN_WIDTH - WIDTH;
      } else if y + HEIGHT > SCREEN_HEIGHT {
        y := SCREEN_HEIGHT - HEIGHT;
      } else if y < 0 {
        y := 0;
      }
      x := x + Trunc(vx);
      y := y + Trunc(vy);
    }

    method Animation(keys: Keys)
      modifies this
      ensures State() == AfterAnimation(old(State()), keys)
    {
      if keys.w {
        frameIndex := frameIndex + TrackStep(Up);
        if frameIndex >= TrackLength(Up) as real {
          frameIndex := 0.0;
        }
        track := Up;
      } else if keys.s {
        frameIndex := frameIndex + TrackStep(Down);
        if frameIndex >= TrackLength(Down) as real {
          frameIndex := 0.0;
        }
        track := Down;
      } else {
        frameIndex := frameIndex + TrackStep(Neutral);
        if frameIndex >= TrackLength(Neutral) as real {
          frameIndex := 0.0;
        }
        track := Neutral;
      }
      image := FrameAt(frameIndex, TrackLength(track));
    }

    method Reset()
      modifies this
      ensures State() == AfterReset(old(State()))
    {
      x, y := START_X - WIDTH / 2, START_BOTTOM - HEIGHT;
    }

    method Update(keys: Keys)
      modifies this
      ensures State() == AfterUpdate(old(State()), keys)
    {
      Input(keys);
      ApplyMovement();
      Animation(keys);
    }
  }
}
