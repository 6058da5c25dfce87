/**
 * The client's own character: the same landing, gravity, drag, snapping and
 * movement rules as the server's simulation, plus keyboard input (space to
 * jump, with a debounce latch, and left/right to steer).  Key states are
 * parameters of a frame; the image fields are not modelled.
 */
module ClientCharacter {
  import opened Levels
  import opened ServerCharacter

  /** The three keys a frame polls. */
  datatype Keys = Keys(space: bool, left: bool, right: bool)

  /** The package-level `KeySpace_debounce` flag, shared by every character. */
  class SpaceDebounce {
    var latched: bool

    constructor ()
      ensures !latched
    {
      latched := false;
    }
  }

  /** Horizontal acceleration from a pressed arrow key: full on a platform, half in the air. */
  function SteerStep(b: Body): real
  {
    if b.grounded then HORIZONTAL_ACCELERATION else HORIZONTAL_ACCELERATION / 2.0
  }

  /** Left, then right, move the horizontal force by the steering step, capped at the maximum. */
  function Steer(b: Body, keys: Keys): (r: Body)
    ensures r == b.(forceX := r.forceX)
    ensures !keys.left && !keys.right ==> r == b
    ensures keys.left && !keys.right ==> r.forceX == Max(b.forceX - SteerStep(b), -HORIZONTAL_MAX_FORCE)
    ensures keys.right && !keys.left ==> r.forceX == Min(b.forceX + SteerStep(b), HORIZONTAL_MAX_FORCE)
    ensures keys.left && !keys.right ==> r.forceX >= -HORIZONTAL_MAX_FORCE
    ensures keys.right ==> r.forceX <= HORIZONTAL_MAX_FORCE
    ensures keys.left && keys.right ==>
              r.forceX == Min(Max(b.forceX - SteerStep(b), -HORIZONTAL_MAX_FORCE) + SteerStep(b), HORIZONTAL_MAX_FORCE)
    ensures keys.left && keys.right ==> -HORIZONTAL_MAX_FORCE <= r.forceX
    ensures -HORIZONTAL_MAX_FORCE <= b.forceX <= HORIZONTAL_MAX_FORCE ==>
              -HORIZONTAL_MAX_FORCE <= r.forceX <= HORIZONTAL_MAX_FORCE
  {
    var afterLeft :=
      if keys.left then b.(forceX := Max(b.forceX - SteerStep(b), -HORIZONTAL_MAX_FORCE)) else b;
    if keys.right then afterLeft.(forceX := Min(afterLeft.forceX + SteerStep(b), HORIZONTAL_MAX_FORCE))
    else afterLeft
  }

  /** Whether this frame's space key triggers a jump. */
  function SpaceTriggers(latched: bool, space: bool): bool
  {
    var released := if !space && latched then false else latched;
    space && !released
  }

  /** One frame: the body and the debounce latch after `Update`. */
  function Frame(b: Body, latched: bool, keys: Keys, level: Level): (r: (Body, bool))
    ensures r.1 == keys.space
    ensures Snapped(r.0) && r.0.width == b.width && r.0.height == b.height
    ensures r.0.doublejumping ==> b.doublejumping || SpaceTriggers(latched, keys.space)
  {
    var integrated := Integrate(Land(b, level));
    var jumped := if SpaceTriggers(latched, keys.space) then ApplyJump(integrated) else integrated;
    var latchedAfter := if !keys.space && latched then false else if keys.space then true else latched;
    (Move(Snap(Steer(jumped, keys)), level), latchedAfter)
  }

  /** The latch ends every frame equal to the space key, and a jump fires only on a fresh press. */
  lemma DebounceFollowsKey(b: Body, latched: bool, keys: Keys, level: Level)
    ensures Frame(b, latched, keys, level).1 == keys.space
    ensures SpaceTriggers(latched, keys.space) <==> keys.space && !latched
  {
  }

  /** Holding space over consecutive frames jumps once: the held frames act as if space were up. */
  lemma {:induction false} HeldSpaceJumpsOnce(b: Body, keys: Keys, level: Level)
    requires keys.space
    ensures Frame(b, Frame(b, false, keys, level).1, keys, level).0 ==
            Frame(b, false, keys.(space := false), level).0
  {
    DebounceFollowsKey(b, false, keys, level);
    assert !SpaceTriggers(true, true);
    assert Steer(Integrate(Land(b, level)), keys) == Steer(Integrate(Land(b, level)), keys.(space := false));
  }

  /** A fresh press applies the same three-case jump rule as the server's JUMP command. */
  lemma FreshPressJumps(b: Body, keys: Keys, level: Level)
    requires keys.space
    ensures Frame(b, false, keys, level).0 ==
            Move(Snap(Steer(ApplyJump(Integrate(Land(b, level))), keys)), level)
  {
  }

  /** A frame keeps the character inside the world and leaves no force inside its snap band. */
  lemma FrameKeepsInWorld(b: Body, latched: bool, keys: Keys, level: Level)
    requires InWorld(b, level)
    ensures InWorld(Frame(b, latched, keys, level).0, level)
    ensures Snapped(Frame(b, latched, keys, level).0)
  {
    var integrated := Integrate(Land(b, level));
    var jumped := if SpaceTriggers(latched, keys.space) then ApplyJump(integrated) else integrated;
    var m := Snap(Steer(jumped, keys));
    assert m.x == b.x && m.y == b.y && m.width == b.width && m.height == b.height;
  }

  /** With no key pressed a frame is exactly the server's physics tick. */
  lemma IdleFrameIsServerTick(b: Body, latched: bool, level: Level)
    ensures Frame(b, latched, Keys(false, false, false), level).0 == Physics(b, level)
  {
  }

  /** The player's own character on the client (image fields dropped). */
  class Character {
    var x: real
    var y: real
    var grounded: bool
    var forceX: real
    var forceY: real
    const width: real
    const height: real
    var doublejumping: bool

    function State(): Body
      reads this
    {
      Body(x, y, grounded, forceX, forceY, width, height, doublejumping)
    }

    constructor NewCharacter(x0: real, y0: real)
      ensures State() == NewBody(x0, y0)
    {
      x, y := x0, y0;
      grounded := false;
      forceX, forceY := 0.0, 0.0;
      width, height := CHARACTER_WIDTH, CHARACTER_HEIGHT;
      doublejumping := false;
    }

    /** The landing loop, identical to the server's. */
    method LandingTest(level: Level)
      modifies this
      ensures State() == Land(old(State()), level)
    {
      ghost var start := State();
      if !grounded {
        var i := 0;
        while i < |level.platforms|
          invariant 0 <= i <= |level.platforms|
          invariant State() == start
          invariant forall j :: 0 <= j < i ==> !Overlaps(level.platforms[j], x, y, height)
        {
          var platform := level.platforms[i];
          if (y + height >= platform.y && y <= platform.y + PLATFORM_HEIGHT) &&
             (x >= platform.x && x <= platform.x + PLATFORM_WIDTH)
          {
            assert Overlaps(level.platforms[i], start.x, start.y, start.height);
            grounded := true;
            doublejumping := false;
            forceY := 0.0;
            break;
          }
          i := i + 1;
        }
      }
    }

    /** Gravity and air drag in the air, friction on a platform. */
    method GravityAndFriction()
      modifies this
      ensures State() == Integrate(old(State()))
    {
      if !grounded {
        forceY := Min(forceY + GRAVITY_ACCELERATION, GRAVITY_MAX_FORCE);
        if forceX > 0.0 {
          forceX := forceX - HORIZONTAL_ACCELERATION / 6.0;
        } else if forceX < 0.0 {
          forceX := forceX + HORIZONTAL_ACCELERATION / 6.0;
        }
      } else {
        if forceX > 0.0 {
          forceX := forceX - HORIZONTAL_ACCELERATION / 2.0;
        } else if forceX < 0.0 {
          forceX := forceX + HORIZONTAL_ACCELERATION / 2.0;
        }
      }
    }

    /** Snapping of small forces, then movement clamped to the world. */
    method SnapAndMove(level: Level)
      modifies this
      ensures State() == Move(Snap(old(State())), level)
    {
      forceX := Clamp(forceX, HORIZONTAL_SNAP);
      forceY := Clamp(forceY, VERTICAL_SNAP);
      assert State() == Snap(old(State()));

      ghost var snapped := State();
      if forceX != 0.0 {
        grounded := false;
        x := x + forceX;
        x := Max(0.0, x);
        x := Min(level.width - width, x);
      }
      assert x == MoveAxis(snapped.x, snapped.forceX, level.width - width);
      if forceY != 0.0 {
        grounded := false;
        y := y + forceY;
        y := Max(0.0, y);
        y := Min(level.height - height, y);
      }
      assert y == MoveAxis(snapped.y, snapped.forceY, level.height - height);
    }

    /** One frame of input and physics, as the game loop runs it. */
    method Update(level: Level, keys: Keys, debounce: SpaceDebounce)
      modifies this, debounce
      ensures (State(), debounce.latched) == Frame(old(State()), old(debounce.latched), keys, level)
    {
      LandingTest(level);
      GravityAndFriction();
      JumpInput(keys.space, debounce);
      SteerInput(keys);
      SnapAndMove(level);
    }

    /** The space key with its debounce latch: a fresh press jumps. */
    method JumpInput(space: bool, debounce: SpaceDebounce)
      modifies this, debounce
      ensures State() == if SpaceTriggers(old(debounce.latched), space) then ApplyJump(old(State())) else old(State())
      ensures debounce.latched == if !space && old(debounce.latched) then false else if space then true else old(debounce.latched)
    {
      if !space && debounce.latched {
        debounce.latched := false;
      }
      if space && !debounce.latched {
        debounce.latched := true;
        if grounded {
          forceY := -(GRAVITY_MAX_FORCE / 2.0);
        } else if !doublejumping {
          doublejumping := true;
          forceY := -GRAVITY_MAX_FORCE / 3.0;
        }
      }
    }

    /** The arrow keys: left, then right, each capped at the maximum horizontal force. */
    method SteerInput(keys: Keys)
      modifies this
      ensures State() == Steer(old(State()), keys)
    {
      if keys.left {
        if grounded {
          forceX := Max(forceX - HORIZONTAL_ACCELERATION, -HORIZONTAL_MAX_FORCE);
        } else {
          forceX := Max(forceX - HORIZONTAL_ACCELERATION / 2.0, -HORIZONTAL_MAX_FORCE);
        }
      }
      if keys.right {
        if grounded {
          forceX := Min(forceX + HORIZONTAL_ACCELERATION, HORIZONTAL_MAX_FORCE);
        } else {
          forceX := Min(forceX + HORIZONTAL_ACCELERATION / 2.0, HORIZONTAL_MAX_FORCE);
        }
      }
    }
  }
}
