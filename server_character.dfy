/**
 * The server's authoritative character simulation: one character's position,
 * forces and jump state, the commands and position reports its client sends,
 * and the fixed-timestep physics tick.
 *
 * The tick is specified by pure functions, one per step of the source
 * (Land, Integrate, Snap, Move, composed as Physics); the class methods
 * carry out those steps field by field and are proved equal to them.  The
 * client's twin simulation reuses the same functions.
 */
module ServerCharacter {
  import opened Wrappers
  import opened Protocol
  import opened Levels

  const GRAVITY_ACCELERATION: real := 0.08
  const GRAVITY_MAX_FORCE: real := 9.2
  const HORIZONTAL_ACCELERATION: real := 0.7
  const HORIZONTAL_MAX_FORCE: real := 6.0

  /** Horizontal slow-down per tick in the air and on a platform. */
  const AIR_DRAG: real := HORIZONTAL_ACCELERATION / 6.0
  const GROUND_FRICTION: real := HORIZONTAL_ACCELERATION / 2.0

  /** Forces at most this large (in magnitude) are snapped to zero. */
  const HORIZONTAL_SNAP: real := 0.2
  const VERTICAL_SNAP: real := 0.02

  /** The platform box used by the landing test (the level itself stores only corners). */
  const PLATFORM_WIDTH: real := 100.0
  const PLATFORM_HEIGHT: real := 10.0

  const CHARACTER_WIDTH: real := 20.0
  const CHARACTER_HEIGHT: real := 20.0

  /** Where a JOINED command puts a character, and where the servers create one. */
  const SPAWN_X: real := 140.0
  const SPAWN_Y: real := 310.0

  const JUMP_FORCE: real := -(GRAVITY_MAX_FORCE / 2.0)
  const DOUBLE_JUMP_FORCE: real := -GRAVITY_MAX_FORCE / 3.0

  /** Largest per-axis disagreement between server and client tolerated by a position report. */
  const ACCEPTABLE_SKEW: real := 150.0

  function Abs(v: real): real { if v < 0.0 then -v else v }

  /** `math.Min` and `math.Max` on reals (float64 NaN and infinities are not modelled). */
  function Min(a: real, b: real): real { if a <= b then a else b }
  function Max(a: real, b: real): real { if a >= b then a else b }

  /** One character's simulated state: position, `Physics` fields and the double-jump flag. */
  datatype Body = Body(
    x: real, y: real,
    grounded: bool,
    forceX: real, forceY: real,
    width: real, height: real,
    doublejumping: bool)

  /** The state `NewNetworkCharacter(x, y, ...)` starts from. */
  function NewBody(x: real, y: real): (r: Body)
    ensures r.x == x && r.y == y && !r.grounded && !r.doublejumping
    ensures r.forceX == 0.0 && r.forceY == 0.0 && Snapped(r)
    ensures r.width == CHARACTER_WIDTH && r.height == CHARACTER_HEIGHT
  {
    Body(x, y, false, 0.0, 0.0, CHARACTER_WIDTH, CHARACTER_HEIGHT, false)
  }

  /** `value`, unless its magnitude is within `range`: then exactly zero. */
  function Clamp(value: real, range: real): (r: real)
    ensures r == 0.0 || r == value
    ensures r == 0.0 <==> (Abs(value) <= range || value == 0.0)
  {
    if Abs(value) <= range then 0.0 else value
  }

  lemma ClampIdempotent(value: real, range: real)
    ensures Clamp(Clamp(value, range), range) == Clamp(value, range)
  {
  }

  // ---------------------------------------------------------------- landing

  /** The landing test: the character's bottom edge within the platform's band, its x over the platform. */
  predicate Overlaps(p: Platform, x: real, y: real, height: real): (r: bool)
    ensures r <==> p.y <= y + height <= p.y + PLATFORM_HEIGHT + height && p.x <= x <= p.x + PLATFORM_WIDTH
  {
    (y + height >= p.y && y <= p.y + PLATFORM_HEIGHT) &&
    (x >= p.x && x <= p.x + PLATFORM_WIDTH)
  }

  predicate OnSomePlatform(platforms: seq<Platform>, x: real, y: real, height: real)
  {
    exists i :: 0 <= i < |platforms| && Overlaps(platforms[i], x, y, height)
  }

  /** The platform at which the landing loop stops: the first one the character overlaps. */
  function FirstOverlap(platforms: seq<Platform>, x: real, y: real, height: real): (r: Option<nat>)
    ensures r.Some? ==> r.value < |platforms| && Overlaps(platforms[r.value], x, y, height)
    ensures r.Some? ==> forall j :: 0 <= j < r.value ==> !Overlaps(platforms[j], x, y, height)
    ensures r.None? <==> !OnSomePlatform(platforms, x, y, height)
    decreases |platforms|
  {
    if platforms == [] then None
    else if Overlaps(platforms[0], x, y, height) then Some(0)
    else
      var rest := FirstOverlap(platforms[1..], x, y, height);
      assert forall j :: 1 <= j < |platforms| ==> platforms[j] == platforms[1..][j - 1];
      match rest
      case Some(i) => Some(i + 1)
      case None => None
  }

  /** Step 1: an airborne character that overlaps a platform lands on it. */
  function Land(b: Body, level: Level): (r: Body)
    ensures b.grounded ==> r == b
    ensures !b.grounded && !OnSomePlatform(level.platforms, b.x, b.y, b.height) ==> r == b
    ensures !b.grounded && OnSomePlatform(level.platforms, b.x, b.y, b.height) ==>
              r == b.(grounded := true, doublejumping := false, forceY := 0.0)
  {
    if b.grounded then b
    else
      match FirstOverlap(level.platforms, b.x, b.y, b.height)
      case Some(_) => b.(grounded := true, doublejumping := false, forceY := 0.0)
      case None => b
  }

  // ------------------------------------------------------- force integration

  /** A horizontal force moved `step` towards zero; a zero force stays zero. */
  function Decay(force: real, step: real): (r: real)
    ensures force == 0.0 ==> r == 0.0
    ensures force > 0.0 ==> r == force - step
    ensures force < 0.0 ==> r == force + step
  {
    if force > 0.0 then force - step
    else if force < 0.0 then force + step
    else force
  }

  /** Step 2: gravity and air drag in the air, friction on a platform. */
  function Integrate(b: Body): (r: Body)
    ensures r == b.(forceX := r.forceX, forceY := r.forceY)
    ensures !b.grounded ==> r.forceY == Min(b.forceY + GRAVITY_ACCELERATION, GRAVITY_MAX_FORCE)
    ensures !b.grounded ==> r.forceY <= GRAVITY_MAX_FORCE
    ensures !b.grounded ==> r.forceX == Decay(b.forceX, AIR_DRAG)
    ensures b.grounded ==> r.forceY == b.forceY && r.forceX == Decay(b.forceX, GROUND_FRICTION)
  {
    if !b.grounded then
      b.(forceY := Min(b.forceY + GRAVITY_ACCELERATION, GRAVITY_MAX_FORCE),
         forceX := Decay(b.forceX, AIR_DRAG))
    else
      b.(forceX := Decay(b.forceX, GROUND_FRICTION))
  }

  // ---------------------------------------------------------------- snapping

  /** No force lies strictly inside its snap band. */
  predicate Snapped(b: Body)
  {
    && (b.forceX == 0.0 || Abs(b.forceX) > HORIZONTAL_SNAP)
    && (b.forceY == 0.0 || Abs(b.forceY) > VERTICAL_SNAP)
  }

  /** Step 3: small forces become exactly zero. */
  function Snap(b: Body): (r: Body)
    ensures Snapped(r)
    ensures Snapped(b) ==> r == b
    ensures r == b.(forceX := Clamp(b.forceX, HORIZONTAL_SNAP), forceY := Clamp(b.forceY, VERTICAL_SNAP))
  {
    b.(forceX := Clamp(b.forceX, HORIZONTAL_SNAP), forceY := Clamp(b.forceY, VERTICAL_SNAP))
  }

  // ---------------------------------------------------------------- movement

  /** One coordinate after its force is applied and it is clamped to `[0, limit]`. */
  function MoveAxis(pos: real, force: real, limit: real): (r: real)
    ensures force == 0.0 ==> r == pos
    ensures force != 0.0 ==> r <= limit
    ensures force != 0.0 && limit >= 0.0 ==> r >= 0.0
    ensures force != 0.0 && 0.0 <= pos + force <= limit ==> r == pos + force
    ensures force != 0.0 && pos + force > limit ==> r == limit
    ensures force != 0.0 && pos + force < 0.0 && limit >= 0.0 ==> r == 0.0
  {
    if force != 0.0 then Min(limit, Max(0.0, pos + force)) else pos
  }

  /** Step 4: nonzero forces move the character, and any movement leaves the ground. */
  function Move(b: Body, level: Level): (r: Body)
    ensures r.forceX == b.forceX && r.forceY == b.forceY
    ensures r.width == b.width && r.height == b.height && r.doublejumping == b.doublejumping
    ensures r.grounded <==> b.grounded && b.forceX == 0.0 && b.forceY == 0.0
    ensures r.x == MoveAxis(b.x, b.forceX, level.width - b.width)
    ensures r.y == MoveAxis(b.y, b.forceY, level.height - b.height)
  {
    b.(x := MoveAxis(b.x, b.forceX, level.width - b.width),
       y := MoveAxis(b.y, b.forceY, level.height - b.height),
       grounded := b.grounded && b.forceX == 0.0 && b.forceY == 0.0)
  }

  /** The whole physics step of one tick. */
  function Physics(b: Body, level: Level): (r: Body)
    ensures Snapped(r)
    ensures r.width == b.width && r.height == b.height
    ensures r.doublejumping ==> b.doublejumping
  {
    Move(Snap(Integrate(Land(b, level))), level)
  }

  /** What a tick returns: one position update exactly when the position changed. */
  function Emission(before: Body, after: Body): (updates: seq<ServerUpdate>)
    ensures |updates| <= 1
    ensures |updates| == 1 <==> before.x != after.x || before.y != after.y
    ensures |updates| == 1 ==> updates[0] == PositionMessage(0, after.x, after.y)
  {
    if before.x != after.x || before.y != after.y then [PositionMessage(0, after.x, after.y)] else []
  }

  /** The character lies inside the world: `[0, width - w] x [0, height - h]`. */
  predicate InWorld(b: Body, level: Level)
  {
    0.0 <= b.x <= level.width - b.width && 0.0 <= b.y <= level.height - b.height
  }

  // ---------------------------------------------------------------- commands

  /** JUMP: a full jump from a platform, one reduced jump in the air, then nothing. */
  function ApplyJump(b: Body): (r: Body)
    ensures b.grounded ==> r == b.(forceY := JUMP_FORCE)
    ensures !b.grounded && !b.doublejumping ==> r == b.(doublejumping := true, forceY := DOUBLE_JUMP_FORCE)
    ensures !b.grounded && b.doublejumping ==> r == b
  {
    if b.grounded then b.(forceY := JUMP_FORCE)
    else if !b.doublejumping then b.(doublejumping := true, forceY := DOUBLE_JUMP_FORCE)
    else b
  }

  /** The effect of a client command on the character. */
  function ApplyCommand(b: Body, command: CommandKind): (r: Body)
    ensures command == Joined ==> r == b.(x := SPAWN_X, y := SPAWN_Y, forceX := 0.0, forceY := 0.0)
    ensures command == Jump ==> r == ApplyJump(b)
    ensures command == Quit || command == Other ==> r == b
  {
    match command
    case Quit => b
    case Joined => b.(x := SPAWN_X, y := SPAWN_Y, forceX := 0.0, forceY := 0.0)
    case Jump => ApplyJump(b)
    case Other => b
  }

  /** The skew on one axis: the difference of the magnitudes of the two coordinates. */
  function Skew(server: real, client: real): (r: real)
    ensures r >= 0.0
    ensures r <= Abs(server - client)
    ensures Abs(server) == Abs(client) ==> r == 0.0
  {
    Abs(Abs(server) - Abs(client))
  }

  /** A position report: the client's velocity is adopted unless either axis is skewed too far. */
  function AdoptReport(b: Body, report: Position): (r: Body)
    ensures r == b.(forceX := r.forceX, forceY := r.forceY)
    ensures Skew(b.x, report.x) > ACCEPTABLE_SKEW || Skew(b.y, report.y) > ACCEPTABLE_SKEW ==> r == b
    ensures Skew(b.x, report.x) <= ACCEPTABLE_SKEW && Skew(b.y, report.y) <= ACCEPTABLE_SKEW ==>
              r.forceX == report.velX && r.forceY == report.velY
  {
    if Skew(b.x, report.x) > ACCEPTABLE_SKEW || Skew(b.y, report.y) > ACCEPTABLE_SKEW then b
    else b.(forceX := report.velX, forceY := report.velY)
  }

  // ------------------------------------------------------ properties of a tick

  /** A tick keeps a character that is inside the world inside it. */
  lemma PhysicsKeepsInWorld(b: Body, level: Level)
    requires InWorld(b, level)
    ensures InWorld(Physics(b, level), level)
  {
    var m := Snap(Integrate(Land(b, level)));
    assert m.x == b.x && m.y == b.y && m.width == b.width && m.height == b.height;
  }

  /** Per axis: a nonzero force ends the tick airborne and clamped; a zero force moves nothing. */
  lemma PhysicsMovesByForce(b: Body, level: Level)
    ensures var m := Snap(Integrate(Land(b, level))); var r := Physics(b, level);
      && (m.forceX != 0.0 ==> !r.grounded && r.x <= level.width - b.width
                              && (level.width >= b.width ==> r.x >= 0.0))
      && (m.forceX == 0.0 ==> r.x == b.x)
      && (m.forceY != 0.0 ==> !r.grounded && r.y <= level.height - b.height
                              && (level.height >= b.height ==> r.y >= 0.0))
      && (m.forceY == 0.0 ==> r.y == b.y)
      && r.forceX == m.forceX && r.forceY == m.forceY
  {
    var m := Snap(Integrate(Land(b, level)));
    assert m.x == b.x && m.y == b.y && m.width == b.width && m.height == b.height;
  }

  /** A grounded character with no forces is left exactly as it is and reports nothing. */
  lemma RestingIsFixedPoint(b: Body, level: Level)
    requires b.grounded && b.forceX == 0.0 && b.forceY == 0.0
    ensures Physics(b, level) == b
    ensures Emission(b, Physics(b, level)) == []
  {
  }

  /** In free fall, the downward force grows strictly every tick until it reaches the cap. */
  lemma {:induction false} GravityStrictlyIncreases(b: Body, level: Level)
    requires !b.grounded && !OnSomePlatform(level.platforms, b.x, b.y, b.height)
    requires b.forceY < GRAVITY_MAX_FORCE
    ensures b.forceY < Physics(b, level).forceY <= GRAVITY_MAX_FORCE
  {
    var i := Integrate(Land(b, level));
    assert i.forceY == Min(b.forceY + GRAVITY_ACCELERATION, GRAVITY_MAX_FORCE);
  }

  /** Whenever the character is airborne after the landing test, the tick ends with the vertical force at most the cap. */
  lemma AirborneForceCapped(b: Body, level: Level)
    requires !Land(b, level).grounded
    ensures Physics(b, level).forceY <= GRAVITY_MAX_FORCE
  {
    var i := Integrate(Land(b, level));
    assert i.forceY <= GRAVITY_MAX_FORCE;
  }

  /** Drag and friction never enlarge a snapped horizontal force, and shrink a nonzero one. */
  lemma FrictionNeverAmplifies(b: Body, level: Level)
    requires Snapped(b)
    ensures Abs(Physics(b, level).forceX) <= Abs(b.forceX)
    ensures b.forceX != 0.0 ==> Abs(Physics(b, level).forceX) < Abs(b.forceX)
  {
    var l := Land(b, level);
    assert l.forceX == b.forceX;
    var i := Integrate(l);
    assert Abs(i.forceX) < Abs(b.forceX) || b.forceX == 0.0;
  }

  /** Without the snapped precondition friction can overshoot: a grounded force of 0.1 becomes -0.25. */
  lemma FrictionOvershootsUnsnappedForce(level: Level)
    ensures var b := NewBody(SPAWN_X, SPAWN_Y).(grounded := true, forceX := 0.1);
            Physics(b, level).forceX == -0.25
  {
  }

  /** Repeating JUMP before the next tick changes nothing more. */
  lemma JumpIdempotent(b: Body)
    ensures ApplyJump(ApplyJump(b)) == ApplyJump(b)
  {
  }

  /**
   * A jump from a platform lifts the character off at the next tick; after
   * that one JUMP applies the reduced double jump, and a further JUMP is a no-op.
   */
  lemma DoubleJumpOnce(b: Body, level: Level)
    requires b.grounded && !b.doublejumping
    ensures var lifted := Physics(ApplyJump(b), level);
      && !lifted.grounded && !lifted.doublejumping
      && ApplyJump(lifted) == lifted.(doublejumping := true, forceY := DOUBLE_JUMP_FORCE)
      && ApplyJump(ApplyJump(lifted)) == ApplyJump(lifted)
  {
    var j := ApplyJump(b);
    assert j.grounded && j.forceY == JUMP_FORCE;
    var s := Snap(Integrate(Land(j, level)));
    assert s.forceY == JUMP_FORCE;
  }

  /** A character spawned at (140, 310) in the shipped level is on no platform and starts to fall. */
  lemma SpawnFalls()
    ensures Physics(NewBody(SPAWN_X, SPAWN_Y), NewLevel()) ==
            NewBody(SPAWN_X, SPAWN_Y).(y := SPAWN_Y + GRAVITY_ACCELERATION, forceY := GRAVITY_ACCELERATION)
  {
    var ps := NewLevel().platforms;
    assert forall i :: 0 <= i < |ps| ==> !Overlaps(ps[i], SPAWN_X, SPAWN_Y, CHARACTER_HEIGHT);
  }

  /** Commands keep a character inside a world large enough to hold the spawn point. */
  lemma CommandKeepsInWorld(b: Body, command: CommandKind, level: Level)
    requires InWorld(b, level)
    requires SPAWN_X + b.width <= level.width && SPAWN_Y + b.height <= level.height
    ensures InWorld(ApplyCommand(b, command), level)
  {
  }

  /** A position report never moves the character, accepted or not. */
  lemma ReportNeverMoves(b: Body, report: Position, level: Level)
    ensures AdoptReport(b, report).x == b.x && AdoptReport(b, report).y == b.y
    ensures InWorld(b, level) ==> InWorld(AdoptReport(b, report), level)
  {
  }

  /** With the 100x10 box of the landing test, every platform of the shipped level lies inside the world. */
  lemma LevelPlatformsInsideWorld()
    ensures var l := NewLevel();
      forall i :: 0 <= i < |l.platforms| ==>
        0.0 <= l.platforms[i].x && l.platforms[i].x + PLATFORM_WIDTH <= l.width &&
        0.0 <= l.platforms[i].y && l.platforms[i].y + PLATFORM_HEIGHT <= l.height
  {
  }

  // --------------------------------------------------------------- the class

  /** A connected player's character on the server (stream and lock elided). */
  class Character {
    var x: real
    var y: real
    var grounded: bool
    var forceX: real
    var forceY: real
    const width: real
    const height: real
    var doublejumping: bool
    const userName: string
    const userId: int32

    function State(): Body
      reads this
    {
      Body(x, y, grounded, forceX, forceY, width, height, doublejumping)
    }

    constructor NewNetworkCharacter(x0: real, y0: real, name: string, id: int32)
      ensures State() == NewBody(x0, y0)
      ensures userName == name && userId == id
    {
      x, y := x0, y0;
      grounded := false;
      forceX, forceY := 0.0, 0.0;
      width, height := CHARACTER_WIDTH, CHARACTER_HEIGHT;
      doublejumping := false;
      userName, userId := name, id;
    }

    method CommandUpdate(command: CommandKind)
      modifies this
      ensures State() == ApplyCommand(old(State()), command)
    {
      match command
      case Quit =>
      case Joined =>
        x := SPAWN_X;
        y := SPAWN_Y;
        forceX := 0.0;
        forceY := 0.0;
      case Jump =>
        if grounded {
          forceY := -(GRAVITY_MAX_FORCE / 2.0);
        } else if !doublejumping {
          doublejumping := true;
          forceY := -GRAVITY_MAX_FORCE / 3.0;
        }
      case Other =>
    }

    method PositionUpdate(report: Position)
      modifies this
      ensures State() == AdoptReport(old(State()), report)
    {
      var skewX := Abs(Abs(x) - Abs(report.x));
      var skewY := Abs(Abs(y) - Abs(report.y));
      if skewX > ACCEPTABLE_SKEW || skewY > ACCEPTABLE_SKEW {
        return;
      }
      forceX := report.velX;
      forceY := report.velY;
    }

    /** The dispatch on each message received from the client stream. */
    method HandleClientUpdate(payload: Payload)
      modifies this
      ensures payload.CommandPayload? ==> State() == ApplyCommand(old(State()), payload.command)
      ensures payload.PositionPayload? ==> State() == AdoptReport(old(State()), payload.position)
      ensures payload.NoPayload? ==> State() == old(State())
    {
      match payload
      case CommandPayload(command) => CommandUpdate(command);
      case PositionPayload(position) => PositionUpdate(position);
      case NoPayload =>
    }

    method Tick(level: Level) returns (updates: seq<ServerUpdate>)
      modifies this
      ensures State() == Physics(old(State()), level)
      ensures updates == Emission(old(State()), State())
    {
      updates := UpdatePhysics(level);
    }

    /**
     * The landing loop of a tick.  It runs only while airborne and stops at the
     * first platform the character overlaps, whose index it reports.
     */
    method LandingTest(level: Level) returns (landedOn: Option<nat>)
      modifies this
      ensures State() == Land(old(State()), level)
      ensures landedOn == if old(grounded) then None else FirstOverlap(level.platforms, old(x), old(y), height)
    {
      ghost var start := State();
      landedOn := None;
      if !grounded {
        var i := 0;
        while i < |level.platforms|
          invariant 0 <= i <= |level.platforms|
          invariant State() == start
          invariant forall j :: 0 <= j < i ==> !Overlaps(level.platforms[j], x, y, height)
        {
          var platform := level.platforms[i];
          if (y + height >= platform.y && y <= platform.y + PLATFORM_HEIGHT) &&
             (x >= platform.x && x <= platform.x + PLATFORM_WIDTH)
          {
            assert Overlaps(level.platforms[i], start.x, start.y, start.height);
            grounded := true;
            doublejumping := false;
            forceY := 0.0;
            landedOn := Some(i);
            break;
          }
          i := i + 1;
        }
      }
    }

    method UpdatePhysics(level: Level) returns (updates: seq<ServerUpdate>)
      modifies this
      ensures State() == Physics(old(State()), level)
      ensures updates == Emission(old(State()), State())
    {
      var previousX, previousY := x, y;
      ghost var start := State();

      var _ := LandingTest(level);
      assert State() == Land(start, level);

      GravityAndFriction();
      SnapAndMove(level);
      assert State() == Physics(start, level);

      if previousX != x || previousY != y {
        updates := [PositionMessage(0, x, y)];
      } else {
        updates := [];
      }
    }

    /** Gravity and air drag in the air, friction on a platform. */
    method GravityAndFriction()
      modifies this
      ensures State() == Integrate(old(State()))
    {
      if !grounded {
        forceY := Min(forceY + GRAVITY_ACCELERATION, GRAVITY_MAX_FORCE);
        if forceX > 0.0 {
          forceX := forceX - HORIZONTAL_ACCELERATION / 6.0;
        } else if forceX < 0.0 {
          forceX := forceX + HORIZONTAL_ACCELERATION / 6.0;
        }
      } else {
        if forceX > 0.0 {
          forceX := forceX - HORIZONTAL_ACCELERATION / 2.0;
        } else if forceX < 0.0 {
          forceX := forceX + HORIZONTAL_ACCELERATION / 2.0;
        }
      }
    }

    /** Snapping of small forces, then movement clamped to the world. */
    method SnapAndMove(level: Level)
      modifies this
      ensures State() == Move(Snap(old(State())), level)
    {
      forceX := Clamp(forceX, HORIZONTAL_SNAP);
      forceY := Clamp(forceY, VERTICAL_SNAP);
      assert State() == Snap(old(State()));

      ghost var snapped := State();
      if forceX != 0.0 {
        grounded := false;
        x := x + forceX;
        x := Max(0.0, x);
        x := Min(level.width - width, x);
      }
      assert x == MoveAxis(snapped.x, snapped.forceX, level.width - width);
      if forceY != 0.0 {
        grounded := false;
        y := y + forceY;
        y := Max(0.0, y);
        y := Min(level.height - height, y);
      }
      assert y == MoveAxis(snapped.y, snapped.forceY, level.height - height);
    }
  }
}
