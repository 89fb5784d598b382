/** What one tick of the platformer promises, stated over the pure `Step`:
    the invariant it keeps, the controls, jumping and landing, the respawn,
    coins and score, and a few concrete ticks from the spawn state. */
module GameProperties {
  import opened GameInput
  import opened GamePhysics

  lemma SpawnSatisfiesInv()
    ensures Inv(SPAWN)
  {
    assert PLATFORMS[0].y == GROUND_Y;
  }

  /** Every tick keeps the game invariant. */
  lemma StepPreservesInvariant(s: Snapshot, keys: set<string>)
    ensures Inv(s) ==> Inv(Step(s, keys))
  {
    if Inv(s) {
      var m := Integrate(s, keys);
      var r := Step(s, keys);
      if m.finalY > FALL_LIMIT {
        assert PLATFORMS[0].y == GROUND_Y;
      } else {
        var gained := Gained(s.collected, Point(s.x, s.y), Point(m.finalX, m.finalY));
        assert s.collected * gained == {};
        assert |s.collected + gained| == |s.collected| + |gained|;
        if r.isGrounded {
          var c := FirstContact(PLATFORMS, m.newX, m.newY, m.newVy);
          var i :| 0 <= i < |PLATFORMS| && LandsOn(PLATFORMS[i], m.newX, m.newY, m.newVy) && c.y == PLATFORMS[i].y;
          assert PLATFORMS[i].y == r.y;
        }
      }
    }
  }

  // ---------------------------------------------------------------- controls

  /** Left wins over right; with neither held the character stops and keeps
      facing the way it did; moving is set exactly when a direction is held. */
  lemma HorizontalControl(s: Snapshot, keys: set<string>)
    requires !FallsThrough(s, keys)
    ensures var r := Step(s, keys);
      && (LeftHeld(keys) ==> r.vx == -MOVE_SPEED && !r.facingRight)
      && (!LeftHeld(keys) && RightHeld(keys) ==> r.vx == MOVE_SPEED && r.facingRight)
      && (!LeftHeld(keys) && !RightHeld(keys) ==> r.vx == 0.0 && r.facingRight == s.facingRight)
      && (r.isMoving <==> LeftHeld(keys) || RightHeld(keys))
  {
  }

  /** A tick depends on the held keys only through the three controls. */
  lemma {:induction false} StepSeesOnlyControls(s: Snapshot, keys: set<string>, other: set<string>)
    requires LeftHeld(keys) == LeftHeld(other) && RightHeld(keys) == RightHeld(other)
    requires JumpHeld(keys) == JumpHeld(other)
    ensures Step(s, keys) == Step(s, other)
  {
    assert Steer(keys, s.facingRight) == Steer(other, s.facingRight);
    assert Launch(keys, s.isGrounded, s.vy) == Launch(other, s.isGrounded, s.vy);
  }

  /** A tick changes nothing when a key the loop never looks up is added to
      or removed from the held set. */
  lemma {:induction false} UnrecognisedKeysIgnored(s: Snapshot, keys: set<string>, k: string)
    requires k !in GAMEPLAY_KEYS
    ensures Step(s, keys + {k}) == Step(s, keys)
    ensures Step(s, keys - {k}) == Step(s, keys)
  {
    UnrecognisedKeyInert(keys, k);
    StepSeesOnlyControls(s, keys + {k}, keys);
    StepSeesOnlyControls(s, keys - {k}, keys);
  }

  // ---------------------------------------------------------------- jumping and landing

  /** The impulse applies only from the ground and only with a jump key held;
      gravity is added on every tick. */
  lemma JumpImpulse(s: Snapshot, keys: set<string>)
    ensures JumpHeld(keys) && s.isGrounded ==> Integrate(s, keys).newVy == -JUMP_FORCE + GRAVITY
    ensures !(JumpHeld(keys) && s.isGrounded) ==> Integrate(s, keys).newVy == s.vy + GRAVITY
  {
  }

  /** A character moving up never lands: the landing query requires vy >= 0. */
  lemma {:induction false} RisingNeverLands(s: Snapshot, keys: set<string>)
    requires Integrate(s, keys).newVy < 0.0
    ensures !Integrate(s, keys).contact.onGround
    ensures !FallsThrough(s, keys) ==>
      !Step(s, keys).isGrounded && Step(s, keys).y == s.y + Integrate(s, keys).newVy
  {
  }

  /** The take-off tick from a valid grounded state: vy is -11.5, the
      character is airborne and 11.5 higher. */
  lemma {:induction false} TakeOff(s: Snapshot, keys: set<string>)
    requires Inv(s) && s.isGrounded && JumpHeld(keys)
    ensures Step(s, keys).vy == -11.5
    ensures !Step(s, keys).isGrounded
    ensures Step(s, keys).y == s.y - 11.5
  {
    RisingNeverLands(s, keys);
  }

  /** The tick ends on the ground exactly when the proposed position lands on
      some platform; it then stands still vertically on that platform's top. */
  lemma {:induction false} LandingSnaps(s: Snapshot, keys: set<string>)
    requires !FallsThrough(s, keys)
    ensures var m := Integrate(s, keys); var r := Step(s, keys);
      && (r.isGrounded <==> exists i :: 0 <= i < |PLATFORMS| && LandsOn(PLATFORMS[i], m.newX, m.newY, m.newVy))
      && (r.isGrounded ==> r.vy == 0.0 && IsPlatformTop(r.y))
      && (!r.isGrounded ==> r.vy == m.newVy && r.y == m.newY)
  {
    var m := Integrate(s, keys);
    if m.contact.onGround {
      var i :| 0 <= i < |PLATFORMS| && LandsOn(PLATFORMS[i], m.newX, m.newY, m.newVy) && m.contact.y == PLATFORMS[i].y;
      assert PLATFORMS[i].y == Step(s, keys).y;
    }
  }

  /** Neighbouring platforms are at least 50 apart and the character is 48
      wide, so it can stand on at most one platform: the first match in list
      order is the only one. */
  lemma UniqueLanding(x: real, y: real, vy: real, i: nat, j: nat)
    requires i < |PLATFORMS| && j < |PLATFORMS|
    requires LandsOn(PLATFORMS[i], x, y, vy) && LandsOn(PLATFORMS[j], x, y, vy)
    ensures i == j
  {
  }

  // ---------------------------------------------------------------- respawn

  /** Falling below y = 400 puts the character back at the spawn point,
      standing still on the ground; coins, score, camera, moving and facing
      are left exactly as they were. */
  lemma FallThroughRespawns(s: Snapshot, keys: set<string>)
    requires FallsThrough(s, keys)
    ensures var r := Step(s, keys);
      && r.x == 100.0 && r.y == 250.0 && r.vx == 0.0 && r.vy == 0.0 && r.isGrounded
      && r.collected == s.collected && r.score == s.score && r.cameraX == s.cameraX
      && r.isMoving == s.isMoving && r.facingRight == s.facingRight
  {
  }

  /** A character put below the world (y = 500, not rising) is back at the
      spawn values after the next tick, whatever the keys: no platform top is
      within landing distance, so the proposed y stands and exceeds 400. */
  lemma {:induction false} ResetFromBelowWorld(s: Snapshot, keys: set<string>)
    requires s.y == 500.0 && s.vy >= 0.0
    ensures Step(s, keys) == Respawned(s)
  {
    assert Integrate(s, keys).newY >= 488.5;
  }

  /** Between the first two platforms there is nothing to land on: a
      character at y = 395 falling at 5 leaves the world and respawns. */
  lemma FallThroughExample()
    ensures var s := SPAWN.(x := 250.0, y := 395.0, vy := 5.0, isGrounded := false);
      Step(s, {}) == Respawned(s)
  {
    var s := SPAWN.(x := 250.0, y := 395.0, vy := 5.0, isGrounded := false);
    var m := Integrate(s, {});
    assert m.newY == 400.5;
    assert !m.contact.onGround;
  }

  // ---------------------------------------------------------------- coins and score

  /** Coin i is collected by a tick that stays in the world exactly when it
      was collected before or lies within the pickup radius of the position
      before or after the tick. */
  lemma CoinCollectedIff(s: Snapshot, keys: set<string>, i: nat)
    requires !FallsThrough(s, keys) && i < |COIN_POSITIONS|
    ensures var m := Integrate(s, keys);
      i in Step(s, keys).collected <==>
        i in s.collected || Near(COIN_POSITIONS[i], Point(s.x, s.y)) || Near(COIN_POSITIONS[i], Point(m.finalX, m.finalY))
  {
  }

  /** The collected set only grows, and the score grows by 100 for each coin
      newly in it, once however many checks found the coin. */
  lemma {:induction false} ScoreCountsNewCoins(s: Snapshot, keys: set<string>)
    ensures s.collected <= Step(s, keys).collected
    ensures Step(s, keys).score == s.score + COIN_VALUE * |Step(s, keys).collected - s.collected|
  {
    var m := Integrate(s, keys);
    if m.finalY <= FALL_LIMIT {
      var gained := Gained(s.collected, Point(s.x, s.y), Point(m.finalX, m.finalY));
      assert Step(s, keys).collected - s.collected == gained;
    } else {
      assert Step(s, keys).collected - s.collected == {};
    }
  }

  /** A second check at the same position finds nothing new: a coin is never
      collected twice. */
  lemma {:induction false} CollectionIdempotent(c: set<nat>, p: Point)
    ensures Pickups(c + Pickups(c, p), p) == {}
    ensures c * Pickups(c, p) == {}
  {
    var first := Pickups(c, p);
    forall i | i in Pickups(c + first, p)
      ensures false
    {
      assert i !in first;
    }
  }

  // ---------------------------------------------------------------- concrete ticks

  /** Holding right at spawn walks 4 to the right on the starting ground. */
  lemma WalkRightFromSpawn()
    ensures Step(SPAWN, {"d"}) == SPAWN.(x := 104.0, vx := 4.0, isMoving := true)
  {
    var m := Integrate(SPAWN, {"d"});
    assert LandsOn(PLATFORMS[0], m.newX, m.newY, m.newVy);
    assert Gained({}, Point(100.0, 250.0), Point(104.0, 250.0)) == {} by {
      forall i: nat | i < |COIN_POSITIONS|
        ensures !Near(COIN_POSITIONS[i], Point(100.0, 250.0)) && !Near(COIN_POSITIONS[i], Point(104.0, 250.0))
      {
      }
    }
  }

  /** Pressing space at spawn takes off: 11.5 up, airborne. */
  lemma JumpFromSpawn()
    ensures Step(SPAWN, {" "}) == SPAWN.(y := 238.5, vy := -11.5, isGrounded := false)
  {
    RisingNeverLands(SPAWN, {" "});
    assert Gained({}, Point(100.0, 250.0), Point(100.0, 238.5)) == {} by {
      forall i: nat | i < |COIN_POSITIONS|
        ensures !Near(COIN_POSITIONS[i], Point(100.0, 250.0)) && !Near(COIN_POSITIONS[i], Point(100.0, 238.5))
      {
      }
    }
  }
}
