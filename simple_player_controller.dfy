/**
 * The motion controller: once per client tick it moves the player according to the
 * configured movement type. Its own state is the start time of the current movement phase
 * and the last heading; the player is driven through its velocity and yaw setters.
 */
module Controller {
  import opened Geometry
  import opened Config

  /** `updatePlayerMovement` picks a new random heading once more than this many ms have passed. */
  const RandomWindowMs: int := 5000
  /** One full circle takes this many ms. */
  const CirclePeriodMs: int := 20000
  /** The configured speed is scaled by this factor to give the velocity. */
  const SpeedFactor: real := 0.2

  /** The host's `getRotationVector()`: the unit look vector for a (pitch, yaw) pair, in degrees. */
  type Look = (real, real) -> Vec3

  /** The controller's fields: `movementStartTime` (0 means "not started") and `lastMovementDirection`. */
  datatype MotionState = MotionState(startTime: int, direction: Vec3)

  /** The parts of the player the controller reads or writes. */
  datatype ActorState = ActorState(position: Vec3, velocity: Vec3, yaw: real, pitch: real)

  /**
   * What one tick takes from its surroundings: the two clock reads (when the start time is
   * initialised, and when the random or circular branch reads the time), the `Math.random()`
   * draw, and the floating-point library.
   */
  datatype TickInputs = TickInputs(clockAtStart: int, clockAtPattern: int, random: real, trig: Trig)

  /** The state a new controller starts in: not started, heading forward along +z. */
  function InitialMotion(): MotionState {
    MotionState(0, Vec3(0.0, 0.0, 1.0))
  }

  /** The start time after the first-call initialisation: set from the clock only while it is 0. */
  function InitialisedStart(startTime: int, clock: int): int {
    if startTime == 0 then clock else startTime
  }

  /** `movePlayerForward`: horizontal velocity along the look vector, vertical velocity kept. */
  function MovedForward(a: ActorState, speed: real, look: Look): ActorState {
    var movement := look(a.pitch, a.yaw).Scale(speed * SpeedFactor);
    a.(velocity := Vec3(movement.x, a.velocity.y, movement.z))
  }

  /** `stopMovement`: horizontal velocity zeroed, vertical velocity kept. */
  function Stopped(a: ActorState): ActorState {
    a.(velocity := Vec3(0.0, a.velocity.y, 0.0))
  }

  /**
   * The angle `Math.random() * 2 * PI` that random mode draws a heading from; it lies in
   * `[0, 2 PI)` for every value `Math.random()` can return.
   */
  function RandomAngle(random: real): (angle: real)
    ensures 0.0 <= random < 1.0 ==> 0.0 <= angle < 2.0 * PI
  {
    random * 2.0 * PI
  }

  /** The heading drawn in random mode: `(sin a * speed, 0, cos a * speed)` for `a = RandomAngle(random)`. */
  function RandomHeading(random: real, speed: real, trig: Trig): Vec3 {
    var angle := RandomAngle(random);
    Vec3(trig.sin(angle) * speed, 0.0, trig.cos(angle) * speed)
  }

  /** The yaw, in degrees, that faces along a heading. */
  function HeadingYaw(heading: Vec3, trig: Trig): real {
    Degrees(trig.atan2(heading.x, heading.z))
  }

  /** The circular-mode angle in radians: `(elapsed % 20000) / 20000 * 2 * PI`, with Java's `%`. */
  function CircleAngle(elapsedMs: int): real {
    JavaInt.Rem(elapsedMs, CirclePeriodMs) as real / CirclePeriodMs as real * 2.0 * PI
  }

  /**
   * One tick of `updatePlayerMovement` with a player present and the test running:
   * the new controller state and the new player state.
   */
  function Step(p: TestParameters, m: MotionState, a: ActorState, look: Look, t: TickInputs): (MotionState, ActorState) {
    var start := InitialisedStart(m.startTime, t.clockAtStart);
    if p.movementType == "straight_line" then
      (m.(startTime := start), MovedForward(a, p.movementSpeed, look))
    else if p.movementType == "random" then
      if t.clockAtPattern - start > RandomWindowMs then
        var heading := RandomHeading(t.random, p.movementSpeed, t.trig);
        (MotionState(t.clockAtPattern, heading),
         MovedForward(a.(yaw := HeadingYaw(heading, t.trig)), p.movementSpeed, look))
      else
        (m.(startTime := start), MovedForward(a, p.movementSpeed, look))
    else if p.movementType == "circular" then
      var angle := CircleAngle(t.clockAtPattern - start);
      (m.(startTime := start), MovedForward(a.(yaw := Degrees(angle)), p.movementSpeed, look))
    else
      (m.(startTime := start), a)
  }

  /** Ticks one after another, each with its own inputs. */
  function Run(p: TestParameters, m: MotionState, a: ActorState, look: Look, ts: seq<TickInputs>): (MotionState, ActorState)
    decreases |ts|
  {
    if ts == [] then (m, a)
    else
      var (m', a') := Step(p, m, a, look, ts[0]);
      Run(p, m', a', look, ts[1..])
  }

  // ---------------------------------------------------------------- properties of a tick

  /** Moving forward sets the horizontal velocity to `look * (speed * 0.2)` and keeps everything else. */
  lemma MovedForwardVelocity(a: ActorState, speed: real, look: Look)
    ensures var r := MovedForward(a, speed, look);
      && r.velocity.x == look(a.pitch, a.yaw).x * (speed * 0.2)
      && r.velocity.z == look(a.pitch, a.yaw).z * (speed * 0.2)
      && r.velocity.y == a.velocity.y
      && r.position == a.position && r.yaw == a.yaw && r.pitch == a.pitch
  {
  }

  /** Stopping zeroes x and z velocity and keeps y, position and rotation. */
  lemma StoppedVelocity(a: ActorState)
    ensures var r := Stopped(a);
      && r.velocity.x == 0.0 && r.velocity.z == 0.0 && r.velocity.y == a.velocity.y
      && r.position == a.position && r.yaw == a.yaw && r.pitch == a.pitch
  {
  }

  /** The first-call initialisation sets the start time only when it is 0. */
  lemma StartInitialisedOnce(startTime: int, clock: int)
    ensures startTime != 0 ==> InitialisedStart(startTime, clock) == startTime
    ensures startTime == 0 ==> InitialisedStart(startTime, clock) == clock
  {
  }

  /** Straight-line mode only moves forward; the heading stays. */
  lemma StraightLineStep(p: TestParameters, m: MotionState, a: ActorState, look: Look, t: TickInputs)
    requires p.movementType == "straight_line"
    ensures Step(p, m, a, look, t) ==
      (MotionState(InitialisedStart(m.startTime, t.clockAtStart), m.direction), MovedForward(a, p.movementSpeed, look))
  {
  }

  /**
   * Random mode changes heading exactly when strictly more than 5000 ms have passed since the
   * phase start; a change restarts the phase at the current time, draws a horizontal heading
   * and turns the player towards it before moving forward. Otherwise the heading and yaw stay.
   */
  lemma RandomStep(p: TestParameters, m: MotionState, a: ActorState, look: Look, t: TickInputs)
    requires p.movementType == "random"
    ensures var start := InitialisedStart(m.startTime, t.clockAtStart);
      var (m', a') := Step(p, m, a, look, t);
      && (m'.direction != m.direction ==> t.clockAtPattern - start > RandomWindowMs)
      && (t.clockAtPattern - start > RandomWindowMs ==>
            && m'.startTime == t.clockAtPattern
            && m'.direction == RandomHeading(t.random, p.movementSpeed, t.trig)
            && m'.direction.y == 0.0
            && a' == MovedForward(a.(yaw := HeadingYaw(m'.direction, t.trig)), p.movementSpeed, look))
      && (t.clockAtPattern - start <= RandomWindowMs ==>
            && m' == MotionState(start, m.direction)
            && a' == MovedForward(a, p.movementSpeed, look))
  {
  }

  /** A random heading has length `speed` (given sin² + cos² = 1). */
  lemma RandomHeadingLength(random: real, speed: real, trig: Trig)
    requires Pythagorean(trig)
    ensures var h := RandomHeading(random, speed, trig);
      h.x * h.x + h.y * h.y + h.z * h.z == speed * speed
  {
    var angle := RandomAngle(random);
    var s, c := trig.sin(angle), trig.cos(angle);
    assert s * s + c * c == 1.0;
    calc {
      (s * speed) * (s * speed) + 0.0 * 0.0 + (c * speed) * (c * speed);
      (s * s + c * c) * (speed * speed);
      speed * speed;
    }
  }

  /**
   * Circular mode never restarts the phase, turns the player to the phase angle and moves
   * forward along the new look direction.
   */
  lemma CircularStep(p: TestParameters, m: MotionState, a: ActorState, look: Look, t: TickInputs)
    requires p.movementType == "circular"
    ensures var start := InitialisedStart(m.startTime, t.clockAtStart);
      var (m', a') := Step(p, m, a, look, t);
      && m' == MotionState(start, m.direction)
      && a'.yaw == Degrees(CircleAngle(t.clockAtPattern - start))
      && a' == MovedForward(a.(yaw := a'.yaw), p.movementSpeed, look)
  {
  }

  /** The phase index lies in `[0, 20000)` and the angle in `[0, 2 PI)`, for a non-negative elapsed time. */
  lemma CircleAngleRange(elapsedMs: int)
    requires elapsedMs >= 0
    ensures 0 <= JavaInt.Rem(elapsedMs, CirclePeriodMs) < CirclePeriodMs
    ensures 0.0 <= CircleAngle(elapsedMs) < 2.0 * PI
  {
    var k := JavaInt.Rem(elapsedMs, CirclePeriodMs);
    assert 0 <= k < CirclePeriodMs;
    assert k as real / 20000.0 < 1.0;
  }

  /** With a clock running backwards the elapsed time is negative, and so is the angle: in `(-2 PI, 0]`. */
  lemma CircleAngleNegative(elapsedMs: int)
    requires elapsedMs < 0
    ensures -2.0 * PI < CircleAngle(elapsedMs) <= 0.0
  {
    var k := JavaInt.Rem(elapsedMs, CirclePeriodMs);
    assert -CirclePeriodMs < k <= 0;
    assert k as real / 20000.0 > -1.0;
  }

  /** A quarter period in, the circular yaw is 90 degrees. */
  lemma CircleQuarterPeriod()
    ensures Degrees(CircleAngle(5000)) == 90.0
  {
    assert JavaInt.Rem(5000, CirclePeriodMs) == 5000;
  }

  /** An unrecognised movement type leaves the player and the heading as they were. */
  lemma UnknownTypeStep(p: TestParameters, m: MotionState, a: ActorState, look: Look, t: TickInputs)
    requires p.movementType !in {"straight_line", "random", "circular"}
    ensures Step(p, m, a, look, t) == (MotionState(InitialisedStart(m.startTime, t.clockAtStart), m.direction), a)
  {
  }

  /** Every recognised movement type sets the velocity from the (possibly new) look direction. */
  lemma RecognisedTypesMoveForward(p: TestParameters, m: MotionState, a: ActorState, look: Look, t: TickInputs)
    requires p.movementType in {"straight_line", "random", "circular"}
    ensures var a' := Step(p, m, a, look, t).1;
      a' == MovedForward(a.(yaw := a'.yaw), p.movementSpeed, look)
  {
  }

  // ---------------------------------------------------------------- properties of a run

  /**
   * Random mode keeps its heading for the whole window: over any run of ticks whose clock
   * readings stay within 5000 ms of a (non-zero) phase start, neither the heading nor the
   * start time changes.
   */
  lemma {:induction false} RandomHeadingStableInWindow(p: TestParameters, m: MotionState, a: ActorState, look: Look, ts: seq<TickInputs>)
    requires p.movementType == "random"
    requires m.startTime != 0
    requires forall k :: 0 <= k < |ts| ==> ts[k].clockAtPattern - m.startTime <= RandomWindowMs
    ensures Run(p, m, a, look, ts).0 == m
    decreases |ts|
  {
    if ts != [] {
      var (m', a') := Step(p, m, a, look, ts[0]);
      assert m' == m;
      RandomHeadingStableInWindow(p, m', a', look, ts[1..]);
    }
  }

  /**
   * Circular mode never restarts its phase: after any run the start time is the one the
   * first tick initialised.
   */
  lemma {:induction false} CircularStartFixed(p: TestParameters, m: MotionState, a: ActorState, look: Look, ts: seq<TickInputs>)
    requires p.movementType == "circular"
    requires ts != [] && InitialisedStart(m.startTime, ts[0].clockAtStart) != 0
    ensures Run(p, m, a, look, ts).0 == MotionState(InitialisedStart(m.startTime, ts[0].clockAtStart), m.direction)
    decreases |ts|
  {
    var (m', a') := Step(p, m, a, look, ts[0]);
    if |ts| > 1 {
      CircularStartFixed(p, m', a', look, ts[1..]);
    }
  }

  // ---------------------------------------------------------------- the objects

  /** The client player: position, velocity and rotation, changed through its setters. */
  class Actor {
    var position: Vec3
    var velocity: Vec3
    var yaw: real
    var pitch: real
    const look: Look

    constructor (position: Vec3, velocity: Vec3, yaw: real, pitch: real, look: Look)
      ensures State() == ActorState(position, velocity, yaw, pitch) && this.look == look
    {
      this.position, this.velocity, this.yaw, this.pitch := position, velocity, yaw, pitch;
      this.look := look;
    }

    function State(): ActorState
      reads this
    {
      ActorState(position, velocity, yaw, pitch)
    }

    /** `getRotationVector()`. */
    function RotationVector(): Vec3
      reads this
    {
      look(pitch, yaw)
    }

    /** `setYaw`. */
    method SetYaw(y: real)
      modifies this
      ensures State() == old(State()).(yaw := y)
    {
      yaw := y;
    }

    /** `setVelocity(x, y, z)`. */
    method SetVelocity(x: real, y: real, z: real)
      modifies this
      ensures State() == old(State()).(velocity := Vec3(x, y, z))
    {
      velocity := Vec3(x, y, z);
    }
  }

  class SimplePlayerController {
    const config: TestConfig
    var lastMovementDirection: Vec3
    var movementStartTime: int

    function State(): MotionState
      reads this
    {
      MotionState(movementStartTime, lastMovementDirection)
    }

    /** A new controller: heading `(0, 0, 1)`, start time 0. */
    constructor (config: TestConfig)
      ensures this.config == config
      ensures lastMovementDirection == Vec3(0.0, 0.0, 1.0) && movementStartTime == 0
      ensures State() == InitialMotion()
    {
      this.config := config;
      lastMovementDirection := Vec3(0.0, 0.0, 1.0);
      movementStartTime := 0;
    }

    /**
     * `updatePlayerMovement`: nothing happens without a player or while no test runs;
     * otherwise one `Step`.
     */
    method UpdatePlayerMovement(player: Actor?, testRunning: bool, t: TickInputs)
      modifies this, player
      ensures player == null || !testRunning ==> State() == old(State())
      ensures player != null && !testRunning ==> player.State() == old(player.State())
      ensures player != null && testRunning ==>
        (State(), player.State()) == Step(config.test, old(State()), old(player.State()), player.look, t)
    {
      if player == null || !testRunning {
        return;
      }
      if movementStartTime == 0 {
        movementStartTime := t.clockAtStart;
      }
      var movementType := config.test.movementType;
      var speed := config.test.movementSpeed;
      if movementType == "straight_line" {
        MovePlayerForward(player, speed);
      } else if movementType == "random" {
        var currentTime := t.clockAtPattern;
        if currentTime - movementStartTime > RandomWindowMs {
          var randomAngle := RandomAngle(t.random);
          lastMovementDirection := Vec3(t.trig.sin(randomAngle) * speed, 0.0, t.trig.cos(randomAngle) * speed);
          movementStartTime := currentTime;
          var yaw := Degrees(t.trig.atan2(lastMovementDirection.x, lastMovementDirection.z));
          player.SetYaw(yaw);
          assert lastMovementDirection == RandomHeading(t.random, speed, t.trig);
        }
        MovePlayerForward(player, speed);
      } else if movementType == "circular" {
        var currentTime := t.clockAtPattern;
        var elapsedMs := currentTime - movementStartTime;
        var angleInRadians := JavaInt.Rem(elapsedMs, CirclePeriodMs) as real / 20000.0 * 2.0 * PI;
        player.SetYaw(Degrees(angleInRadians));
        MovePlayerForward(player, speed);
      }
    }

    /** `movePlayerForward`: velocity along the look vector, vertical component kept. */
    method MovePlayerForward(player: Actor?, speed: real)
      modifies player
      ensures player != null ==> player.State() == MovedForward(old(player.State()), speed, player.look)
    {
      if player != null {
        var lookVec := player.RotationVector();
        var adjustedSpeed := speed * SpeedFactor;
        var movement := lookVec.Scale(adjustedSpeed);
        var currentVelocity := player.velocity;
        player.SetVelocity(movement.x, currentVelocity.y, movement.z);
      }
    }

    /** `stopMovement`: horizontal velocity zeroed, vertical kept. */
    method StopMovement(player: Actor?)
      modifies player
      ensures player != null ==> player.State() == Stopped(old(player.State()))
    {
      if player != null {
        var currentVelocity := player.velocity;
        player.SetVelocity(0.0, currentVelocity.y, 0.0);
      }
    }
  }
}
