/** The platformer's physics as pure functions: the constants, the static
    level, and `Step`, the whole effect of one game-loop tick on a snapshot of
    the game state. The imperative tick in GameSession is proved equal to it. */
module GamePhysics {
  import opened GameInput

  const MOVE_SPEED: real := 4.0
  const JUMP_FORCE: real := 12.0
  const GRAVITY: real := 0.5
  const GROUND_Y: real := 250.0

  /** Half the character's width; the character is centred on x. */
  const HALF_WIDTH: real := 24.0
  /** How far below a platform's top the feet may be and still land on it. */
  const LANDING_TOLERANCE: real := 15.0
  const MIN_X: real := 50.0
  const MAX_X: real := 1200.0
  /** Below this y the character has fallen out of the world. */
  const FALL_LIMIT: real := 400.0
  const SPAWN_X: real := 100.0
  /** Pickup radius 35, compared squared. */
  const PICKUP_RADIUS_SQUARED: real := 1225.0
  const COIN_VALUE: int := 100
  const CAMERA_LEAD: real := 400.0
  const CAMERA_MAX: real := 400.0
  /** The camera only moves when its target is more than this far away. */
  const CAMERA_DEADBAND: real := 5.0

  datatype Platform = Platform(x: real, y: real, width: real, height: real)
  datatype Point = Point(x: real, y: real)

  const PLATFORMS: seq<Platform> := [
    Platform(0.0, GROUND_Y, 200.0, 50.0),
    Platform(300.0, 200.0, 150.0, 20.0),
    Platform(500.0, 150.0, 100.0, 20.0),
    Platform(700.0, GROUND_Y, 200.0, 50.0),
    Platform(950.0, 180.0, 120.0, 20.0)
  ]

  const COIN_POSITIONS: seq<Point> := [
    Point(150.0, GROUND_Y - 30.0),
    Point(375.0, 170.0),
    Point(550.0, 120.0),
    Point(800.0, GROUND_Y - 30.0),
    Point(1010.0, 150.0),
    Point(250.0, GROUND_Y - 60.0)
  ]

  function Min(a: real, b: real): real { if a <= b then a else b }
  function Max(a: real, b: real): real { if a >= b then a else b }
  function Abs(a: real): real { if a >= 0.0 then a else -a }

  /** `max(lo, min(hi, v))`: v pulled into [lo, hi]. */
  function Clamp(v: real, lo: real, hi: real): (r: real)
    requires lo <= hi
    ensures lo <= r <= hi
    ensures lo <= v <= hi ==> r == v
    ensures v < lo ==> r == lo
    ensures v > hi ==> r == hi
  {
    Max(lo, Min(hi, v))
  }

  // ---------------------------------------------------------------- input

  /** Horizontal outcome of the held keys: velocity, moving flag, facing. */
  datatype Heading = Heading(vx: real, moving: bool, facingRight: bool)

  /** Direct velocity control; a held left key wins over a held right key. */
  function Steer(keys: set<string>, facingRight: bool): (h: Heading)
    ensures h.moving <==> LeftHeld(keys) || RightHeld(keys)
    ensures LeftHeld(keys) ==> h.vx == -MOVE_SPEED && !h.facingRight
    ensures !LeftHeld(keys) && RightHeld(keys) ==> h.vx == MOVE_SPEED && h.facingRight
    ensures !h.moving ==> h.vx == 0.0 && h.facingRight == facingRight
  {
    if LeftHeld(keys) then Heading(-MOVE_SPEED, true, false)
    else if RightHeld(keys) then Heading(MOVE_SPEED, true, true)
    else Heading(0.0, false, facingRight)
  }

  /** Vertical velocity after the jump impulse (only from the ground) and the
      unconditional gravity. */
  function Launch(keys: set<string>, grounded: bool, vy: real): real
  {
    (if JumpHeld(keys) && grounded then -JUMP_FORCE else vy) + GRAVITY
  }

  // ---------------------------------------------------------------- landing

  /** The character, feet at (x, y) and moving down or level, lands on p:
      strict horizontal overlap of [x - 24, x + 24] with the platform and the
      feet within [p.y, p.y + 15]. */
  predicate LandsOn(p: Platform, x: real, y: real, vy: real)
  {
    && x - HALF_WIDTH < p.x + p.width
    && x + HALF_WIDTH > p.x
    && vy >= 0.0
    && p.y <= y <= p.y + LANDING_TOLERANCE
  }

  /** Outcome of the landing query. */
  datatype Contact = Contact(onGround: bool, y: real)

  /** Reference definition of the landing query over a platform list: the top
      of the first platform landed on, or the proposed y if there is none. */
  function FirstContact(ps: seq<Platform>, x: real, y: real, vy: real): (c: Contact)
    ensures c.onGround <==> exists i :: 0 <= i < |ps| && LandsOn(ps[i], x, y, vy)
    ensures c.onGround ==>
      exists i :: 0 <= i < |ps| && LandsOn(ps[i], x, y, vy) && c.y == ps[i].y &&
        forall j :: 0 <= j < i ==> !LandsOn(ps[j], x, y, vy)
    ensures !c.onGround ==> c.y == y
  {
    if |ps| == 0 then Contact(false, y)
    else if LandsOn(ps[0], x, y, vy) then Contact(true, ps[0].y)
    else
      var rest := FirstContact(ps[1..], x, y, vy);
      assert forall i :: 1 <= i < |ps| ==> ps[i] == ps[1..][i - 1];
      assert rest.onGround ==> exists i :: 1 <= i < |ps| && LandsOn(ps[i], x, y, vy);
      rest
  }

  // ---------------------------------------------------------------- coins

  predicate Near(coin: Point, p: Point)
  {
    (p.x - coin.x) * (p.x - coin.x) + (p.y - coin.y) * (p.y - coin.y) < PICKUP_RADIUS_SQUARED
  }

  /** What one proximity check at p adds: every coin not yet collected that
      lies within the pickup radius of p. */
  function Pickups(collected: set<nat>, p: Point): set<nat>
  {
    set i: nat | i < |COIN_POSITIONS| && i !in collected && Near(COIN_POSITIONS[i], p)
  }

  /** What a tick adds: every uncollected coin near the old or the new position. */
  function Gained(collected: set<nat>, before: Point, after: Point): set<nat>
  {
    set i: nat | i < |COIN_POSITIONS| && i !in collected &&
      (Near(COIN_POSITIONS[i], before) || Near(COIN_POSITIONS[i], after))
  }

  // ---------------------------------------------------------------- camera

  /** Where the camera wants to be: 400 behind the character, kept within
      [0, 400]. */
  function CameraTarget(finalX: real): (t: real)
    ensures 0.0 <= t <= CAMERA_MAX
    ensures finalX <= CAMERA_LEAD ==> t == 0.0
    ensures CAMERA_LEAD <= finalX <= CAMERA_LEAD + CAMERA_MAX ==> t == finalX - CAMERA_LEAD
    ensures finalX >= CAMERA_LEAD + CAMERA_MAX ==> t == CAMERA_MAX
  {
    Clamp(finalX - CAMERA_LEAD, 0.0, CAMERA_MAX)
  }

  /** The camera jumps to its target only when that is more than 5 away, so
      it never lags more than 5 behind the target. */
  function NextCamera(cameraX: real, finalX: real): (r: real)
    ensures r == cameraX || r == CameraTarget(finalX)
    ensures Abs(r - CameraTarget(finalX)) <= CAMERA_DEADBAND
    ensures r != cameraX ==> Abs(CameraTarget(finalX) - cameraX) > CAMERA_DEADBAND
  {
    var target := CameraTarget(finalX);
    if Abs(target - cameraX) > CAMERA_DEADBAND then target else cameraX
  }

  // ---------------------------------------------------------------- a tick

  /** A consistent snapshot of everything the game loop reads and writes. */
  datatype Snapshot = Snapshot(
    x: real, y: real, vx: real, vy: real,
    facingRight: bool, isMoving: bool, isGrounded: bool,
    cameraX: real,
    collected: set<nat>, score: int)

  const SPAWN: Snapshot :=
    Snapshot(SPAWN_X, GROUND_Y, 0.0, 0.0, true, false, true, 0.0, {}, 0)

  /** The intermediate values of one tick, before the fall-through test. */
  datatype Motion = Motion(
    heading: Heading,
    newVy: real,
    newX: real, newY: real,
    contact: Contact,
    finalX: real, finalY: real, finalVy: real)

  /** The rest of a tick's motion once the horizontal velocity and the new
      vertical velocity are known: the proposed position, the landing query
      at that (unclamped) position, the snap onto the platform top, and the
      horizontal clamp. */
  function Move(s: Snapshot, h: Heading, newVy: real): (m: Motion)
    ensures m.heading == h && m.newVy == newVy
    ensures m.newX == s.x + h.vx && m.newY == s.y + newVy
    ensures m.contact == FirstContact(PLATFORMS, m.newX, m.newY, newVy)
    ensures MIN_X <= m.finalX <= MAX_X
    ensures MIN_X <= m.newX <= MAX_X ==> m.finalX == m.newX
    ensures m.newX < MIN_X ==> m.finalX == MIN_X
    ensures m.newX > MAX_X ==> m.finalX == MAX_X
    ensures m.contact.onGround ==> m.finalVy == 0.0 && m.finalY == m.contact.y
    ensures !m.contact.onGround ==> m.finalVy == newVy && m.finalY == m.newY
  {
    var newX := s.x + h.vx;
    var newY := s.y + newVy;
    var contact := FirstContact(PLATFORMS, newX, newY, newVy);
    var landed := contact.onGround && newVy >= 0.0;
    Motion(h, newVy, newX, newY, contact,
      Clamp(newX, MIN_X, MAX_X),
      if landed then contact.y else newY,
      if landed then 0.0 else newVy)
  }

  /** The motion of one tick: steering, then jump and gravity, then `Move`. */
  function Integrate(s: Snapshot, keys: set<string>): Motion
  {
    Move(s, Steer(keys, s.facingRight), Launch(keys, s.isGrounded, s.vy))
  }

  /** Position, velocity and ground flag as they are after a fall-through;
      everything else is left as it was. */
  function Respawned(s: Snapshot): Snapshot
  {
    s.(x := SPAWN_X, y := GROUND_Y, vx := 0.0, vy := 0.0, isGrounded := true)
  }

  predicate FallsThrough(s: Snapshot, keys: set<string>)
  {
    Integrate(s, keys).finalY > FALL_LIMIT
  }

  /** The state after a tick that does not fall through: the proposed
      motion is committed, the coins near the old or the new position are
      collected and scored, and the camera follows. */
  function Settle(s: Snapshot, m: Motion): Snapshot
  {
    var gained := Gained(s.collected, Point(s.x, s.y), Point(m.finalX, m.finalY));
    Snapshot(
      m.finalX, m.finalY, m.heading.vx, m.finalVy,
      m.heading.facingRight, m.heading.moving, m.contact.onGround,
      NextCamera(s.cameraX, m.finalX),
      s.collected + gained, s.score + COIN_VALUE * |gained|)
  }

  /** The whole effect of one tick of the game loop. */
  function Step(s: Snapshot, keys: set<string>): Snapshot
  {
    var m := Integrate(s, keys);
    if m.finalY > FALL_LIMIT then Respawned(s) else Settle(s, m)
  }

  /** The intermediate values of a move, one by one. */
  lemma MoveFromParts(s: Snapshot, h: Heading, newVy: real, c: Contact,
                      finalX: real, finalY: real, finalVy: real)
    requires c == FirstContact(PLATFORMS, s.x + h.vx, s.y + newVy, newVy)
    requires finalX == Clamp(s.x + h.vx, MIN_X, MAX_X)
    requires finalY == (if c.onGround && newVy >= 0.0 then c.y else s.y + newVy)
    requires finalVy == (if c.onGround && newVy >= 0.0 then 0.0 else newVy)
    ensures Move(s, h, newVy) == Motion(h, newVy, s.x + h.vx, s.y + newVy, c, finalX, finalY, finalVy)
  {
  }

  predicate IsPlatformTop(y: real)
  {
    exists i :: 0 <= i < |PLATFORMS| && PLATFORMS[i].y == y
  }

  /** What holds of every state the game reaches from the spawn state. */
  predicate Inv(s: Snapshot)
  {
    && MIN_X <= s.x <= MAX_X
    && s.y <= FALL_LIMIT
    && 0.0 <= s.cameraX <= CAMERA_MAX
    && (forall i :: i in s.collected ==> i < |COIN_POSITIONS|)
    && s.score == COIN_VALUE * |s.collected|
    && (s.isGrounded ==> s.vy == 0.0 && IsPlatformTop(s.y))
  }

  // ---------------------------------------------------------------- animation

  datatype Animation = Jump | Run | Idle

  /** The sprite sequence the animation effect picks: airborne first, then
      moving, then idle. */
  function ChooseAnimation(isGrounded: bool, isMoving: bool): (a: Animation)
    ensures a == Jump <==> !isGrounded
    ensures a == Run <==> isGrounded && isMoving
    ensures a == Idle <==> isGrounded && !isMoving
  {
    if !isGrounded then Jump else if isMoving then Run else Idle
  }

  /** The playback speed the animation effect sets with each sequence. */
  function AnimationSpeed(a: Animation): real
  {
    match a
    case Jump => 0.12
    case Run => 0.15
    case Idle => 0.1
  }

  /** The speed set by the animation effect follows the state: 0.12 in the
      air, 0.15 running on the ground, 0.1 standing on it. */
  lemma AnimationSpeedFollowsState(isGrounded: bool, isMoving: bool)
    ensures !isGrounded ==> AnimationSpeed(ChooseAnimation(isGrounded, isMoving)) == 0.12
    ensures isGrounded && isMoving ==> AnimationSpeed(ChooseAnimation(isGrounded, isMoving)) == 0.15
    ensures isGrounded && !isMoving ==> AnimationSpeed(ChooseAnimation(isGrounded, isMoving)) == 0.1
  {
  }
}
