/** The game component's mutable state and its game loop, written as the
    component writes it: locals, a landing query that stops at the first
    platform, two coin checks that add to the collected set in place, and an
    early return on fall-through. Each tick is proved to be `Step`. */
module GameSession {
  import opened GameInput
  import opened GamePhysics
  import opened GameProperties

  /** The landing query: scans the platforms in order and stops at the first
      one the character lands on. */
  method CheckCollisions(newX: real, newY: real, currentVelY: real) returns (onGround: bool, collisionY: real)
    ensures Contact(onGround, collisionY) == FirstContact(PLATFORMS, newX, newY, currentVelY)
  {
    var characterLeft := newX - HALF_WIDTH;
    var characterRight := newX + HALF_WIDTH;
    var characterBottom := newY;
    onGround := false;
    collisionY := newY;
    var i := 0;
    while i < |PLATFORMS|
      invariant 0 <= i <= |PLATFORMS|
      invariant !onGround && collisionY == newY
      invariant FirstContact(PLATFORMS[i..], newX, newY, currentVelY) == FirstContact(PLATFORMS, newX, newY, currentVelY)
    {
      var platform := PLATFORMS[i];
      var horizontalOverlap := characterLeft < platform.x + platform.width && characterRight > platform.x;
      if horizontalOverlap && currentVelY >= 0.0 {
        if characterBottom >= platform.y && characterBottom <= platform.y + LANDING_TOLERANCE {
          onGround := true;
          collisionY := platform.y;
          break;
        }
      }
      assert PLATFORMS[i..][1..] == PLATFORMS[i + 1..];
      i := i + 1;
    }
  }

  class Session {
    var x: real
    var y: real
    var vx: real
    var vy: real
    var facingRight: bool
    var isMoving: bool
    var isGrounded: bool
    var cameraX: real
    var collected: set<nat>
    var score: int

    /** The state as one value. */
    function Snap(): Snapshot
      reads this
    {
      Snapshot(x, y, vx, vy, facingRight, isMoving, isGrounded, cameraX, collected, score)
    }

    ghost predicate Valid()
      reads this
    {
      Inv(Snap())
    }

    constructor ()
      ensures Snap() == SPAWN && Valid()
    {
      x, y := SPAWN_X, GROUND_Y;
      vx, vy := 0.0, 0.0;
      facingRight, isMoving, isGrounded := true, false, true;
      cameraX := 0.0;
      collected, score := {}, 0;
      assert PLATFORMS[0].y == GROUND_Y;
    }

    /** One proximity check at (px, py): every uncollected coin within the
        pickup radius is added once and scores once. */
    method CheckCoinCollection(px: real, py: real)
      modifies this`collected, this`score
      ensures collected == old(collected) + Pickups(old(collected), Point(px, py))
      ensures score == old(score) + COIN_VALUE * |Pickups(old(collected), Point(px, py))|
    {
      ghost var before := collected;
      ghost var p := Point(px, py);
      var index := 0;
      while index < |COIN_POSITIONS|
        invariant 0 <= index <= |COIN_POSITIONS|
        invariant collected == before + PickupsBelow(before, p, index)
        invariant score == old(score) + COIN_VALUE * |PickupsBelow(before, p, index)|
      {
        var coin := COIN_POSITIONS[index];
        if index !in collected && Near(coin, Point(px, py)) {
          PickupsBelowNext(before, p, index, true);
          collected := collected + {index};
          score := score + COIN_VALUE;
        } else {
          PickupsBelowNext(before, p, index, false);
        }
        index := index + 1;
      }
      PickupsBelowAll(before, Point(px, py));
    }

    /** The two proximity checks of a tick, at the position before the tick
        and at the position after it, so that a large step cannot skip over a
        coin; a coin both checks find is added and scored once. */
    method CollectCoins(oldX: real, oldY: real, finalX: real, finalY: real)
      modifies this`collected, this`score
      ensures collected == old(collected) + Gained(old(collected), Point(oldX, oldY), Point(finalX, finalY))
      ensures score == old(score) + COIN_VALUE * |Gained(old(collected), Point(oldX, oldY), Point(finalX, finalY))|
    {
      CheckCoinCollection(oldX, oldY);
      CheckCoinCollection(finalX, finalY);
      GainedIsTwoChecks(old(collected), Point(oldX, oldY), Point(finalX, finalY));
    }

    /** Direct horizontal velocity control from the held keys. */
    method Steering(keys: set<string>) returns (h: Heading)
      ensures h == Steer(keys, facingRight)
    {
      var newVelX := vx;
      var moving := false;
      var newFacingRight := facingRight;
      if LeftHeld(keys) {
        newVelX := -MOVE_SPEED;
        moving := true;
        newFacingRight := false;
      } else if RightHeld(keys) {
        newVelX := MOVE_SPEED;
        moving := true;
        newFacingRight := true;
      } else {
        newVelX := 0.0;
      }
      h := Heading(newVelX, moving, newFacingRight);
    }

    /** The first half of a tick: direct horizontal velocity, the jump
        impulse and gravity, then the move. Reads the state, changes nothing. */
    method Propose(keys: set<string>) returns (m: Motion)
      ensures m == Integrate(Snap(), keys)
    {
      var heading := Steering(keys);
      var newVelY := vy;
      if JumpHeld(keys) && isGrounded {
        newVelY := -JUMP_FORCE;
      }
      newVelY := newVelY + GRAVITY;
      m := Moving(heading, newVelY);
    }

    /** The proposed position, the landing query at it, the ground snap and
        the horizontal clamp. */
    method Moving(heading: Heading, newVelY: real) returns (m: Motion)
      ensures m == Move(Snap(), heading, newVelY)
    {
      var newX := x + heading.vx;
      var newY := y + newVelY;
      var onGround, collisionY := CheckCollisions(newX, newY, newVelY);

      var finalY := newY;
      var finalVelY := newVelY;
      if onGround && newVelY >= 0.0 {
        finalY := collisionY;
        finalVelY := 0.0;
      }
      var finalX := Max(MIN_X, Min(MAX_X, newX));
      m := Motion(heading, newVelY, newX, newY, Contact(onGround, collisionY), finalX, finalY, finalVelY);
      MoveFromParts(Snap(), heading, newVelY, m.contact, finalX, finalY, finalVelY);
    }

    /** The second half of a tick that does not fall through: both coin
        checks, the state writes, and the camera follow with its dead band. */
    method Commit(m: Motion)
      modifies this
      ensures Snap() == Settle(old(Snap()), m)
    {
      CollectCoins(x, y, m.finalX, m.finalY);
      x, y := m.finalX, m.finalY;
      vx, vy := m.heading.vx, m.finalVy;
      isGrounded := m.contact.onGround;
      Face(m.heading);
      FollowCamera(m.finalX);
    }

    /** The moving and facing flags are written only when they change. */
    method Face(h: Heading)
      modifies this`isMoving, this`facingRight
      ensures isMoving == h.moving && facingRight == h.facingRight
    {
      if h.moving != isMoving {
        isMoving := h.moving;
      }
      if h.facingRight != facingRight {
        facingRight := h.facingRight;
      }
    }

    /** The camera follows the character with a lead of 400, clamped to the
        level, and only moves when its target is more than 5 away. */
    method FollowCamera(finalX: real)
      modifies this`cameraX
      ensures cameraX == NextCamera(old(cameraX), finalX)
    {
      var targetCameraX := Max(0.0, Min(CAMERA_MAX, finalX - CAMERA_LEAD));
      if Abs(targetCameraX - cameraX) > CAMERA_DEADBAND {
        cameraX := targetCameraX;
      }
    }

    /** One tick of the game loop with `keys` the keys held at that moment;
        a fall below the world resets position, velocity and the ground flag
        and skips everything else. */
    method Tick(keys: set<string>)
      modifies this
      ensures Snap() == Step(old(Snap()), keys)
      ensures old(Valid()) ==> Valid()
    {
      ghost var s := Snap();
      StepPreservesInvariant(s, keys);
      var m := Propose(keys);
      if m.finalY > FALL_LIMIT {
        x, y := SPAWN_X, GROUND_Y;
        vx, vy := 0.0, 0.0;
        isGrounded := true;
        return;
      }
      Commit(m);
    }
  }

  /** The coins among the first n that one check at p adds. */
  ghost function PickupsBelow(collected: set<nat>, p: Point, n: nat): set<nat>
  {
    set i: nat | i < n && i < |COIN_POSITIONS| && i !in collected && Near(COIN_POSITIONS[i], p)
  }

  lemma PickupsBelowNext(c: set<nat>, p: Point, n: nat, picked: bool)
    requires n < |COIN_POSITIONS|
    requires picked <==> n !in c && Near(COIN_POSITIONS[n], p)
    ensures n !in PickupsBelow(c, p, n)
    ensures picked ==> PickupsBelow(c, p, n + 1) == PickupsBelow(c, p, n) + {n}
    ensures !picked ==> PickupsBelow(c, p, n + 1) == PickupsBelow(c, p, n)
  {
  }

  lemma PickupsBelowAll(c: set<nat>, p: Point)
    ensures PickupsBelow(c, p, |COIN_POSITIONS|) == Pickups(c, p)
  {
  }

  /** The two checks of a tick, at the old and then at the new position, add
      exactly `Gained`, and their scores add up to its size. */
  lemma GainedIsTwoChecks(c: set<nat>, before: Point, after: Point)
    ensures c + Pickups(c, before) + Pickups(c + Pickups(c, before), after) == c + Gained(c, before, after)
    ensures |Pickups(c, before)| + |Pickups(c + Pickups(c, before), after)| == |Gained(c, before, after)|
  {
    var first := Pickups(c, before);
    var second := Pickups(c + first, after);
    assert first * second == {};
    assert first + second == Gained(c, before, after);
  }
}
