# Portfolio site core: platformer tick, live price window, synth control arithmetic

This project models three components of a portfolio web site.

**The side-scrolling platformer** (`Game.tsx`).
- The held-key set that keydown and keyup change: module `GameInput`, class `KeyTracker`.
- The game loop tick: module `GameSession`, class `Session`, method `Tick`. A tick does these steps in order:
  - it sets the horizontal velocity directly from the keys;
  - it applies the jump impulse (from the ground only), then gravity;
  - it asks the landing query `CheckCollisions`, a loop over the five platforms that stops at the first match;
  - it snaps onto the platform found and clamps x to [50, 1200];
  - it returns early with a respawn when the character falls below y = 400;
  - it checks for coins at the old and at the new position;
  - it moves the camera, with a 5-unit dead band.
- Every method of `Session` is proved equal to a pure function of the snapshot in module `GamePhysics`: `Integrate`, `Move`, `Settle` and `Step`.
- Module `GameProperties` proves these facts about `Step`:
  - the game invariant: x within bounds, collected indices below 6, score = 100 × coins, and a grounded character has no vertical velocity and stands on a platform top;
  - the controls;
  - jumping and landing;
  - the respawn;
  - coins and score;
  - a few concrete ticks from the spawn state.
- The held-key set is the keys snapshot that `Tick` takes.

**The live price chart** (`PriceChart.tsx`), module `PriceChart`:
- the append-and-keep-the-last-100 update;
- the y-axis range, which is the lowest and highest price widened by max(5 % of the spread, 25);
- the message handler with its parse-failure path;
- the header text.

**The synthesizer panel** (`SynthControls.tsx`), module `SynthControls`:
- the linear maps from a 0–100 control value to filter Hz, dB, pitch-bend semitones and knob rotation;
- the slider and knob clamps;
- JavaScript's truncating `%`;
- the rounded readouts.

All the game's constants are multiples of 0.5, so the arithmetic is exact over `real`. The coin test "distance < 35" is modelled as "squared distance < 1225". The two are equivalent because both sides are non-negative.

The landing band is [p.y, p.y + 15]: the feet may be on a platform's top or up to 15 units below it (y grows downward), `Game.tsx:343`.

## Model

| member | source | states |
|---|---|---|
| `GameInput.Lower` | src/components/Game.tsx:168 | the key name keeps its length and each character is lower-cased (A–Z shifted, everything else kept) |
| `GameInput.LowerIdempotent` | src/components/Game.tsx:168 | lower-casing twice is lower-casing once, so every name in the held set is already lower-case |
| `GameInput.KeyTracker.constructor` | src/components/Game.tsx:54 | the held set starts empty |
| `GameInput.KeyTracker.KeyDown` | src/components/Game.tsx:166-176 | the lower-cased key is added to the held set, whatever key it is; the default is suppressed exactly for the nine reserved keys |
| `GameInput.KeyTracker.KeyUp` | src/components/Game.tsx:178-188 | the lower-cased key is removed, whatever key it is; the same suppression rule |
| `GameInput.ReleaseIgnoresCase` | src/components/Game.tsx:175-187 | a key pressed in one letter case is released by the same key in any case |
| `GameInput.ReleaseRemovesHeldKey` | src/components/Game.tsx:178-188 | because the held set keeps only lower-case names (the tracker's invariant), a held key leaves the set on a release in any letter case |
| `GameInput.UnrecognisedKeyInert` | src/components/Game.tsx:219-233 | adding or removing a key the loop never looks up changes none of left, right or jump |
| `GameInput.CapitalisedKeysSteer` | src/components/Game.tsx:168-175 | "A", "D" and "ArrowUp" as the browser reports them act as left, right and jump |
| `GamePhysics.Clamp` | src/components/Game.tsx:255 | the result is in [lo, hi], equals v inside, and is the nearer end outside |
| `GamePhysics.Steer` | src/components/Game.tsx:219-229 | moving iff a direction is held; left gives -4 and facing left, and wins over right; right alone gives +4 and facing right; otherwise vx 0 with facing kept |
| `GamePhysics.FirstContact` | src/components/Game.tsx:326-352 | ground iff some platform is landed on; then the y is that of the first one in list order; otherwise the proposed y is returned |
| `GamePhysics.Move` | src/components/Game.tsx:240-255 | the landing query uses the unclamped proposed position; on contact y snaps to the top and vy becomes 0, otherwise both are the proposed ones; final x in [50, 1200], unchanged inside, 50 when the proposed x is below 50 and 1200 when it is above 1200 |
| `GamePhysics.CameraTarget` | src/components/Game.tsx:283 | the camera target lies in [0, 400]: 0 up to x = 400, x − 400 between 400 and 800, 400 from x = 800 on |
| `GamePhysics.NextCamera` | src/components/Game.tsx:283-287 | the camera either stays or jumps to the target, is never more than 5 from the target afterwards, and moves only when it was more than 5 away |
| `GamePhysics.ChooseAnimation` | src/components/Game.tsx:305-317 | jump exactly when airborne, run exactly when grounded and moving, idle exactly when grounded and still |
| `GamePhysics.AnimationSpeed` | src/components/Game.tsx:308-316 | no contract of its own; `GamePhysics.AnimationSpeedFollowsState` states the speed chosen for each state |
| `GamePhysics.AnimationSpeedFollowsState` | src/components/Game.tsx:305-317 | the speed set with the chosen sequence is 0.12 in the air, 0.15 running and 0.1 standing |
| `GamePhysics.Launch` | src/components/Game.tsx:231-237 | no contract of its own; `GameProperties.JumpImpulse` states it: -11.5 with a jump key held on the ground, otherwise old vy + 0.5 |
| `GamePhysics.Integrate` | src/components/Game.tsx:212-255 | no contract of its own: it is `Move` after `Steer` and `Launch`, whose contracts state it; `GameSession.Session.Propose` is proved equal to it |
| `GamePhysics.Respawned` | src/components/Game.tsx:258-263 | no contract of its own; `GameProperties.FallThroughRespawns` states it: spawn position, zero velocity, grounded, all else unchanged |
| `GamePhysics.Settle` | src/components/Game.tsx:265-287 | no contract of its own; `GameProperties.CoinCollectedIff`, `ScoreCountsNewCoins`, `HorizontalControl` and `LandingSnaps` state its effect, and `GameSession.Session.Commit` is proved equal to it |
| `GamePhysics.Step` | src/components/Game.tsx:211-288 | no contract of its own: the pure tick that `GameSession.Session.Tick` is proved equal to; the `GameProperties` lemmas state its properties, `StepPreservesInvariant` first |
| `GameSession.CheckCollisions` | src/components/Game.tsx:326-352 | the loop with its early exit returns exactly `FirstContact` over the platforms |
| `GameSession.Session.constructor` | src/components/Game.tsx:49-61 | the state starts at the spawn snapshot and satisfies the invariant |
| `GameSession.Session.CheckCoinCollection` | src/components/Game.tsx:355-374 | one check adds every uncollected coin within the pickup radius and adds 100 per coin added |
| `GameSession.Session.CollectCoins` | src/components/Game.tsx:265-267 | the two checks of a tick add exactly the uncollected coins near the old or the new position, and score 100 for each once |
| `GameSession.GainedIsTwoChecks` | src/components/Game.tsx:358-369 | the second check's coins are disjoint from the first's, so together they are `Gained` and their scores add up to its size |
| `GameSession.Session.Steering` | src/components/Game.tsx:213-229 | the if-chain on the held keys computes `Steer` |
| `GameSession.Session.Propose` | src/components/Game.tsx:212-237 | the locals of the first half of the tick together are `Integrate` of the state |
| `GameSession.Session.Moving` | src/components/Game.tsx:240-255 | position, landing query, snap and clamp compute `Move` |
| `GameSession.Session.Commit` | src/components/Game.tsx:265-287 | a tick that stays in the world leaves the state `Settle(old state, motion)` |
| `GameSession.Session.Face` | src/components/Game.tsx:274-280 | the moving and facing flags end up as the tick computed them |
| `GameSession.Session.FollowCamera` | src/components/Game.tsx:283-287 | the camera becomes `NextCamera` of its old value |
| `GameSession.Session.Tick` | src/components/Game.tsx:211-288 | one tick leaves the state `Step(old state, keys)` and keeps the invariant |
| `GameProperties.SpawnSatisfiesInv` | src/components/Game.tsx:49-61 | the spawn state satisfies the invariant |
| `GameProperties.StepPreservesInvariant` | src/components/Game.tsx:211-288 | every tick keeps the invariant: x in [50, 1200], y ≤ 400, camera in [0, 400], indices below 6, score = 100 × coins, grounded ⇒ vy = 0 on a platform top |
| `GameProperties.HorizontalControl` | src/components/Game.tsx:219-229 | on a tick that does not fall through, vx is -4 with left held, else +4 with right held, else 0; facing changes only with a direction held; isMoving iff one is held |
| `GameProperties.StepSeesOnlyControls` | src/components/Game.tsx:212-233 | two key sets that agree on left, right and jump give the same tick |
| `GameProperties.UnrecognisedKeysIgnored` | src/components/Game.tsx:219-233 | a key the loop never looks up, held or released, changes nothing in a tick |
| `GameProperties.JumpImpulse` | src/components/Game.tsx:232-237 | vy becomes -11.5 exactly when a jump key is held on the ground; otherwise it grows by 0.5 |
| `GameProperties.RisingNeverLands` | src/components/Game.tsx:341-347 | a rising character gets no ground contact and ends the tick airborne at the proposed y |
| `GameProperties.TakeOff` | src/components/Game.tsx:232-252 | jumping from a valid grounded state gives vy = -11.5, airborne, 11.5 higher |
| `GameProperties.LandingSnaps` | src/components/Game.tsx:244-272 | on a tick that does not fall through, grounded after the tick iff the proposed position lands on a platform; grounded ⇒ vy = 0 on a platform top; airborne ⇒ proposed y and vy |
| `GameProperties.UniqueLanding` | src/components/Game.tsx:13-19 | the character can land on at most one platform at a time, so list order never decides |
| `GameProperties.FallThroughRespawns` | src/components/Game.tsx:258-263 | a fall-through gives exactly x 100, y 250, v (0, 0), grounded, and leaves coins, score, camera, moving and facing unchanged |
| `GameProperties.ResetFromBelowWorld` | src/components/Game.tsx:258-263 | from y = 500 and not rising, the next tick is the respawn, whatever the keys |
| `GameProperties.FallThroughExample` | src/components/Game.tsx:258-263 | falling between the first two platforms past y = 400 respawns |
| `GameProperties.CoinCollectedIff` | src/components/Game.tsx:265-267 | on a tick that does not fall through, coin i is collected after the tick iff it was before or is near the old or the new position |
| `GameProperties.ScoreCountsNewCoins` | src/components/Game.tsx:364-369 | the collected set only grows and the score grows by 100 per newly collected coin |
| `GameProperties.CollectionIdempotent` | src/components/Game.tsx:358-369 | a second check at the same position collects nothing: no coin is collected twice |
| `GameProperties.WalkRightFromSpawn` | src/components/Game.tsx:211-288 | holding "d" at spawn gives x 104, vx 4, moving, still on the ground |
| `GameProperties.JumpFromSpawn` | src/components/Game.tsx:211-288 | holding space at spawn gives y 238.5, vy -11.5, airborne |
| `PriceChart.Append` | src/components/PriceChart.tsx:93-96 | the new window has min(n + 1, 100) points, ends with the new point, and is a suffix of the old window followed by the new point |
| `PriceChart.AppendDropsOnlyTheOldest` | src/components/PriceChart.tsx:94-95 | below 100 nothing is dropped; at 100 exactly the oldest point is dropped |
| `PriceChart.FeedKeepsLast` | src/components/PriceChart.tsx:93-96 | after any run of messages the window is the last 100 points seen, in arrival order |
| `PriceChart.MinPrice` | src/components/PriceChart.tsx:44 | a price of the window that no price is below |
| `PriceChart.MaxPrice` | src/components/PriceChart.tsx:45 | a price of the window that no price is above |
| `PriceChart.Padding` | src/components/PriceChart.tsx:46 | the padding is at least 25 and at least 5 % of the spread, and is one of the two |
| `PriceChart.PriceRange` | src/components/PriceChart.tsx:43-50 | the range is at least 50 wide and tight: every price is at least the padding from each end, and some price is exactly the padding above the bottom and some exactly the padding below the top |
| `PriceChart.PricesInsideRange` | src/components/PriceChart.tsx:42-50 | every price lies strictly inside the range, at least 25 from each end |
| `PriceChart.RefreshRange` | src/components/PriceChart.tsx:41-52 | the range is recomputed for a non-empty window; an empty window keeps the state |
| `PriceChart.Receive` | src/components/PriceChart.tsx:83-103 | an update appends its point, ends loading and sets the range to the padded range of the new window; a malformed message changes nothing |
| `PriceChart.InitialSatisfiesInv` | src/components/PriceChart.tsx:34-38 | the initial state satisfies the chart invariant |
| `PriceChart.ReceivePreservesInv` | src/components/PriceChart.tsx:41-103 | every message keeps the chart invariant: at most 100 points; loading iff empty; range = padded range of the window, or {0, 0} while empty |
| `PriceChart.HeadlineOf` | src/components/PriceChart.tsx:164-181 | the spinner iff loading; the price iff loaded and non-empty, and then it is the last point's price |
| `PriceChart.HeadlineShowsLatestPrice` | src/components/PriceChart.tsx:171-174 | after an update the header shows that update's price |
| `PriceChart.NoDataNeverShown` | src/components/PriceChart.tsx:179-181 | in a reachable state the "no data" branch never shows |
| `SynthControls.ClampControl` | src/components/SynthControls.tsx:167 | the result is in [0, 100], unchanged inside, 0 below and 100 above |
| `SynthControls.FilterHz` | src/components/SynthControls.tsx:82 | the cut-off is in [20, 20000] Hz for a control in range, 20 at 0 and 20000 at 100 |
| `SynthControls.VolumeDb` | src/components/SynthControls.tsx:90 | the volume is in [-60, 0] dB for a control in range, -60 at 0 and 0 at 100 |
| `SynthControls.PitchBend` | src/components/SynthControls.tsx:99 | the bend is in [-2, 2] semitones, 0 at 50, and negative exactly below 50 |
| `SynthControls.KnobRotation` | src/components/SynthControls.tsx:152 | the rotation is in [-135, 135] degrees: -135 at 0, 0 at 50, 135 at 100 |
| `SynthControls.ConversionsIncreasing` | src/components/SynthControls.tsx:82-152 | all four conversions are strictly increasing |
| `SynthControls.InitialSettings` | src/components/SynthControls.tsx:8-11 | the initial controls give 10010 Hz, -15 dB, no bend and an upright filter knob |
| `SynthControls.SliderVertical` | src/components/SynthControls.tsx:214 | the value is in [0, 100]: 100 at coordinate 0 of the handler's point, 0 at 128, linear between |
| `SynthControls.SliderHorizontal` | src/components/SynthControls.tsx:217 | the value is in [0, 100]: 0 at coordinate 0 of the handler's point, 100 at 128, linear between |
| `SynthControls.Rem360` | src/components/SynthControls.tsx:166 | JavaScript `%`: the result is within one turn, has the sign of the dividend, and differs from it by whole turns |
| `SynthControls.Normalized` | src/components/SynthControls.tsx:166 | the shifted angle is brought into [0, 360) by whole turns |
| `SynthControls.KnobClick` | src/components/SynthControls.tsx:161-168 | the click value is in [0, 100]: the normalised angle over 270, and 100 in the dead zone past 270 |
| `SynthControls.IndicatorAngle` | src/components/SynthControls.tsx:152-176 | the screen direction in which the indicator points is its rotation − 90 (clockwise from straight up, so − 90 from the positive x axis), moved by one turn to stay in (-180, 180] |
| `SynthControls.KnobClickMisreadsIndicator` | src/components/SynthControls.tsx:165-167 | a click on the indicator of a knob at 50 does not read 50, and one at 0 reads 100 |
| `SynthControls.KnobClickFromArcStart` | src/components/SynthControls.tsx:165-167 | the corrected click value is in [0, 100] |
| `SynthControls.KnobClickFromArcStartRoundTrip` | src/components/SynthControls.tsx:152-176 | with the corrected offset a click in the indicator's direction reads back the value the knob shows |
| `SynthControls.Round` | src/components/SynthControls.tsx:366 | `Math.round` is within half a unit of its argument |
| `SynthControls.FilterReadout` | src/components/SynthControls.tsx:366 | no contract of its own; `SynthControls.ReadoutsMatchApplied` proves it is `Math.round` of the applied cut-off |
| `SynthControls.VolumeReadout` | src/components/SynthControls.tsx:372 | no contract of its own; `SynthControls.ReadoutsMatchApplied` proves it is `Math.round` of the applied volume |
| `SynthControls.ReadoutsMatchApplied` | src/components/SynthControls.tsx:366-372 | the Hz and dB readouts, written out from their own formulas, are the applied values rounded: off by at most 0.5, within [20, 20000] and [-60, 0] |
| `SynthControls.InitialReadouts` | src/components/SynthControls.tsx:366-372 | the initial readouts are 10010 Hz and -15 dB |

## Left out

- Rendering is not modelled. This covers the PIXI texture loading, `drawBackground`/`drawPlatforms`, the sprite's facing scale and all markup. It is drawing by foreign libraries.
- The React plumbing is not modelled:
  - the 16 ms `setInterval`;
  - the effect dependency lists;
  - batched state updates and stale closures.

  A tick is one atomic update of a consistent snapshot.
- Both coin checks in the source read the collected set from before the tick. The model's second check reads the set after the first. The results agree because the source's state updater re-checks the set before adding a coin.
- Several parts of the key handling are not modelled:
  - the switch of the listener target between window and game container;
  - the `preventDefault` call, which is modelled only as the returned boolean `suppressDefault`;
  - focus on game start.
- `GameInput.Lower` covers ASCII letters only; full Unicode `toLowerCase` is not modelled. A key name can hold non-ASCII letters ("Ä", "ö"), but no name with a non-ASCII character lower-cases to one of the seven names the loop looks up, so the controls do not depend on the difference.
- The tick receives the held keys as a parameter: it sees the set at the moment it runs.
- The price socket is not modelled: its lifecycle, endpoint fallback, timers and close codes. Neither is the endpoint index, which is unbounded because its bound check is commented out. All of this is network I/O.
- `PriceChart.Receive` takes an already-parsed message:
  - a payload `JSON.parse` rejects is `Malformed`;
  - a `parseFloat` that yields NaN is not modelled;
  - prices are exact reals, not doubles.
- The time stamp of a price comes from the clock and is a parameter (`now`). Locale number formatting and the chart library are not modelled.
- The Tone.js audio graph, sequencer, oscillator start/stop and waveform selection are not modelled. They belong to a foreign audio library.
- The `Math.pow` pitch-to-Hz conversion and the pitch readout are not modelled. They are transcendental floating-point functions.
- `SynthControls.SliderVertical` and `SynthControls.SliderHorizontal` take the coordinate the drag handler receives. That is framer-motion's `info.point`, which is relative to the page, not to the track, so the model does not capture where the track sits on the page.
- The synthesizer arithmetic is over exact reals, not doubles. `SynthControls.ConversionsIncreasing` holds for the real formulas; with rounding, two close values may map to the same double.
- `SynthControls.KnobClick` is not given the raw `atan2` result in radians. It takes the click angle already in degrees, because `atan2` and the conversion by π are transcendental.
- The news ticker, the decorative laser animation, the page and the layout files are not part of this model. They are network fetching, decoration and static markup.

## Findings

| source | as written | input that shows it | evidently intended | confidence | as-written member | corrected member |
|---|---|---|---|---|---|---|
| src/components/SynthControls.tsx:166 | the click angle, measured by `atan2` from the positive x axis, is shifted by +135 before it is read as a fraction of 270 | a click straight up from the centre of a knob at 50 (the indicator's direction, angle -90) reads about 16.7; a click in the direction of the indicator of a knob at 0 (angle 135) reads 100 | the knob's arc is drawn clockwise from straight up starting at -135, i.e. from screen angle 135; shifting by +225 makes angle 135 read 0, so a click in the indicator's direction reads back the value shown | medium, not executed | `SynthControls.KnobClickMisreadsIndicator` (over `SynthControls.KnobClick`) | `SynthControls.KnobClickFromArcStart`, proved by `SynthControls.KnobClickFromArcStartRoundTrip` |
