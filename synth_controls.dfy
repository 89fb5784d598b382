/** The synthesizer panel's control arithmetic: every control holds a value
    in [0, 100], which is mapped linearly onto the audio parameter it drives
    (filter cut-off, volume, pitch bend) and onto the knob's drawn rotation;
    drag and click positions are clamped back into [0, 100]; the readouts
    round the applied value. */
module SynthControls {

  const INITIAL_FILTER: real := 50.0
  const INITIAL_VOLUME: real := 75.0
  const INITIAL_MOD: real := 0.0
  const INITIAL_PITCH: real := 50.0

  /** Slider track length in pixels. */
  const TRACK: real := 128.0

  /** A control value lies in [0, 100]. */
  predicate InControlRange(v: real) { 0.0 <= v <= 100.0 }

  /** `Math.max(0, Math.min(100, raw))`. */
  function ClampControl(raw: real): (v: real)
    ensures InControlRange(v)
    ensures InControlRange(raw) ==> v == raw
    ensures raw < 0.0 ==> v == 0.0
    ensures raw > 100.0 ==> v == 100.0
  {
    var capped := if raw <= 100.0 then raw else 100.0;
    if capped >= 0.0 then capped else 0.0
  }

  // ---------------------------------------------------------------- conversions

  /** Filter cut-off, 20 Hz at 0 up to 20 kHz at 100. */
  function FilterHz(v: real): (hz: real)
    ensures InControlRange(v) ==> 20.0 <= hz <= 20000.0
    ensures v == 0.0 ==> hz == 20.0
    ensures v == 100.0 ==> hz == 20000.0
  {
    20.0 + (v / 100.0) * 19980.0
  }

  /** Volume, -60 dB at 0 up to 0 dB at 100. */
  function VolumeDb(v: real): (db: real)
    ensures InControlRange(v) ==> -60.0 <= db <= 0.0
    ensures v == 0.0 ==> db == -60.0
    ensures v == 100.0 ==> db == 0.0
  {
    -60.0 + (v / 100.0) * 60.0
  }

  /** Pitch bend in semitones, -2 at 0, none at 50, +2 at 100. */
  function PitchBend(v: real): (semitones: real)
    ensures InControlRange(v) ==> -2.0 <= semitones <= 2.0
    ensures v == 50.0 ==> semitones == 0.0
    ensures semitones < 0.0 <==> v < 50.0
  {
    ((v - 50.0) / 50.0) * 2.0
  }

  /** The knob indicator's rotation in degrees clockwise from straight up,
      -135 at 0 to +135 at 100. */
  function KnobRotation(v: real): (deg: real)
    ensures InControlRange(v) ==> -135.0 <= deg <= 135.0
    ensures v == 0.0 ==> deg == -135.0
    ensures v == 100.0 ==> deg == 135.0
    ensures v == 50.0 ==> deg == 0.0
  {
    (v / 100.0) * 270.0 - 135.0
  }

  /** Every conversion is strictly increasing in the control value. */
  lemma ConversionsIncreasing(v: real, w: real)
    requires v < w
    ensures FilterHz(v) < FilterHz(w)
    ensures VolumeDb(v) < VolumeDb(w)
    ensures PitchBend(v) < PitchBend(w)
    ensures KnobRotation(v) < KnobRotation(w)
  {
  }

  /** The panel starts at a 10010 Hz cut-off, -15 dB, no pitch bend and an
      upright filter knob. */
  lemma InitialSettings()
    ensures FilterHz(INITIAL_FILTER) == 10010.0
    ensures VolumeDb(INITIAL_VOLUME) == -15.0
    ensures PitchBend(INITIAL_PITCH) == 0.0
    ensures KnobRotation(INITIAL_FILTER) == 0.0
    ensures InControlRange(INITIAL_MOD)
  {
  }

  // ---------------------------------------------------------------- sliders

  /** Vertical slider, given the y coordinate the drag handler receives:
      0 gives 100, 128 (the track's length) gives 0, linear between. */
  function SliderVertical(pointY: real): (v: real)
    ensures InControlRange(v)
    ensures 0.0 <= pointY <= TRACK ==> v == 100.0 - (pointY / TRACK) * 100.0
    ensures pointY <= 0.0 ==> v == 100.0
    ensures pointY >= TRACK ==> v == 0.0
  {
    ClampControl(100.0 - (pointY / TRACK) * 100.0)
  }

  /** Horizontal slider, given the x coordinate the drag handler receives:
      0 gives 0, 128 (the track's length) gives 100, linear between. */
  function SliderHorizontal(pointX: real): (v: real)
    ensures InControlRange(v)
    ensures 0.0 <= pointX <= TRACK ==> v == (pointX / TRACK) * 100.0
    ensures pointX <= 0.0 ==> v == 0.0
    ensures pointX >= TRACK ==> v == 100.0
  {
    ClampControl((pointX / TRACK) * 100.0)
  }

  // ---------------------------------------------------------------- knob click

  /** Truncation toward zero. */
  function Trunc(x: real): (n: int)
    ensures x >= 0.0 ==> n as real <= x < n as real + 1.0
    ensures x < 0.0 ==> n as real - 1.0 < x <= n as real
  {
    if x >= 0.0 then x.Floor else -((-x).Floor)
  }

  /** k whole turns, in degrees. */
  function Turns(k: int): real { 360.0 * k as real }

  /** JavaScript's `a % 360`: the remainder takes the sign of a, and a minus
      it is a whole number of turns. */
  function Rem360(a: real): (r: real)
    ensures -360.0 < r < 360.0
    ensures a >= 0.0 ==> r >= 0.0
    ensures a <= 0.0 ==> r <= 0.0
    ensures 0.0 <= a < 360.0 ==> r == a
    ensures exists k: int :: a - r == Turns(k)
  {
    var k := Trunc(a / 360.0);
    assert a - (a - 360.0 * k as real) == Turns(k);
    a - 360.0 * k as real
  }

  /** `((a + offset) % 360 + 360) % 360`: the angle shifted by offset and
      brought into [0, 360). */
  function Normalized(a: real, offset: real): (r: real)
    ensures 0.0 <= r < 360.0
    ensures exists k: int :: a + offset - r == Turns(k)
    ensures 0.0 <= a + offset < 360.0 ==> r == a + offset
    ensures -360.0 < a + offset < 0.0 ==> r == a + offset + 360.0
  {
    var once := Rem360(a + offset);
    var twice := Rem360(once + 360.0);
    assert 0.0 < once + 360.0 < 720.0;
    var j: int :| a + offset - once == Turns(j);
    var k: int :| once + 360.0 - twice == Turns(k);
    assert a + offset - twice == Turns(j + k - 1);
    twice
  }

  /** Offset the click handler adds to the click angle. */
  const CLICK_OFFSET: real := 135.0

  /** The knob's click handler, given the click's angle around the knob's
      centre in degrees in (-180, 180], clockwise from the positive x axis as
      `atan2` measures it on screen: the angle plus 135, brought into
      [0, 360), is read as a fraction of 270 and clamped to [0, 100]. */
  function KnobClick(degrees: real): (v: real)
    ensures InControlRange(v)
    ensures Normalized(degrees, CLICK_OFFSET) >= 270.0 ==> v == 100.0
    ensures Normalized(degrees, CLICK_OFFSET) <= 270.0 ==> v == Normalized(degrees, CLICK_OFFSET) / 270.0 * 100.0
  {
    ClampControl((Normalized(degrees, CLICK_OFFSET) / 270.0) * 100.0)
  }

  /** The direction, as a screen angle in `atan2`'s terms, in which the
      indicator of a knob holding value v points: its rotation is clockwise
      from straight up, which is -90 from the positive x axis. The bar pivots
      on its own lower end, not on the knob's centre, so a click on the bar's
      tip is at this angle around the centre only at value 50; the round trip
      below is about the direction. */
  function IndicatorAngle(v: real): (a: real)
    requires InControlRange(v)
    ensures -180.0 < a <= 180.0
    ensures a == KnobRotation(v) - 90.0 || a == KnobRotation(v) + 270.0
  {
    var fromX := KnobRotation(v) - 90.0;
    if fromX <= -180.0 then fromX + 360.0 else fromX
  }

  /** Clicking on the indicator of a knob at 50 (straight up) does not give 50:
      the handler measures from 135 degrees off the indicator's zero. */
  lemma KnobClickMisreadsIndicator()
    ensures IndicatorAngle(50.0) == -90.0
    ensures KnobClick(IndicatorAngle(50.0)) != 50.0
    ensures KnobClick(IndicatorAngle(0.0)) == 100.0
  {
    assert IndicatorAngle(0.0) == 135.0;
    assert Normalized(135.0, CLICK_OFFSET) == 270.0;
    assert Normalized(-90.0, CLICK_OFFSET) == 45.0;
  }

  /** The offset that measures the click angle from the indicator's position at
      value 0, as the drawn rotation does. */
  const ARC_START_OFFSET: real := 225.0

  /** The click handler with the click angle measured from the knob's value-0
      position: a click in the indicator's direction reads back the value the
      knob shows. */
  function KnobClickFromArcStart(degrees: real): (v: real)
    ensures InControlRange(v)
  {
    ClampControl((Normalized(degrees, ARC_START_OFFSET) / 270.0) * 100.0)
  }

  lemma {:induction false} KnobClickFromArcStartRoundTrip(v: real)
    requires InControlRange(v)
    ensures KnobClickFromArcStart(IndicatorAngle(v)) == v
  {
    var a := IndicatorAngle(v);
    var turn := KnobRotation(v) + 135.0;
    assert 0.0 <= turn <= 270.0;
    if KnobRotation(v) - 90.0 <= -180.0 {
      assert a + ARC_START_OFFSET == turn + 360.0;
      var k: int :| a + ARC_START_OFFSET - Normalized(a, ARC_START_OFFSET) == Turns(k);
      assert k == 1;
    } else {
      assert a + ARC_START_OFFSET == turn;
    }
    assert Normalized(a, ARC_START_OFFSET) == turn;
  }

  // ---------------------------------------------------------------- readouts

  /** `Math.round`: the nearest whole number, halves rounded up. */
  function Round(x: real): (n: int)
    ensures x - 0.5 < n as real <= x + 0.5
  {
    (x + 0.5).Floor
  }

  /** The cut-off readout, as the panel writes its own formula out. */
  function FilterReadout(v: real): int { Round(20.0 + (v / 100.0) * 19980.0) }

  /** The volume readout, as the panel writes its own formula out. */
  function VolumeReadout(v: real): int { Round(-60.0 + (v / 100.0) * 60.0) }

  /** The displayed numbers are the applied values, rounded: never more than
      half a unit off, and within the same ranges. */
  lemma ReadoutsMatchApplied(v: real)
    requires InControlRange(v)
    ensures FilterReadout(v) == Round(FilterHz(v))
    ensures VolumeReadout(v) == Round(VolumeDb(v))
    ensures -0.5 <= FilterReadout(v) as real - FilterHz(v) <= 0.5
    ensures -0.5 <= VolumeReadout(v) as real - VolumeDb(v) <= 0.5
    ensures 20 <= FilterReadout(v) <= 20000
    ensures -60 <= VolumeReadout(v) <= 0
  {
  }

  lemma InitialReadouts()
    ensures FilterReadout(INITIAL_FILTER) == 10010
    ensures VolumeReadout(INITIAL_VOLUME) == -15
  {
    InitialSettings();
  }
}
