/** Keyboard input of the platformer: key names are lower-cased and kept in a
    set of held keys that keydown adds to and keyup removes from. */
module GameInput {

  /** ASCII lower-casing of one character (the only letters key names use). */
  function LowerChar(c: char): (r: char)
    ensures 'A' <= c <= 'Z' ==> r as int == c as int + 32
    ensures !('A' <= c <= 'Z') ==> r == c
    ensures !('A' <= r <= 'Z')
  {
    if 'A' <= c <= 'Z' then (c as int + 32) as char else c
  }

  /** The key name as `toLowerCase` gives it, character by character. */
  function Lower(s: string): (r: string)
    ensures |r| == |s|
    ensures forall i :: 0 <= i < |s| ==> r[i] == LowerChar(s[i])
  {
    if |s| == 0 then "" else [LowerChar(s[0])] + Lower(s[1..])
  }

  lemma {:induction false} LowerIdempotent(s: string)
    ensures Lower(Lower(s)) == Lower(s)
  {
    var once := Lower(s);
    var twice := Lower(once);
    assert |twice| == |once|;
    forall i | 0 <= i < |once|
      ensures twice[i] == once[i]
    {
      assert once[i] == LowerChar(s[i]);
    }
  }

  /** Keys whose browser default (scrolling) is suppressed. */
  const RESERVED_KEYS: seq<string> :=
    ["arrowup", "arrowdown", "arrowleft", "arrowright", " ", "w", "a", "s", "d"]

  predicate LeftHeld(keys: set<string>) { "a" in keys || "arrowleft" in keys }
  predicate RightHeld(keys: set<string>) { "d" in keys || "arrowright" in keys }
  predicate JumpHeld(keys: set<string>) { " " in keys || "w" in keys || "arrowup" in keys }

  /** Every key name that the game loop looks up. */
  const GAMEPLAY_KEYS: set<string> := {"a", "arrowleft", "d", "arrowright", " ", "w", "arrowup"}

  /** Adding or removing a key the game loop never looks up changes none of
      the three controls. */
  lemma UnrecognisedKeyInert(keys: set<string>, k: string)
    requires k !in GAMEPLAY_KEYS
    ensures LeftHeld(keys + {k}) == LeftHeld(keys) && LeftHeld(keys - {k}) == LeftHeld(keys)
    ensures RightHeld(keys + {k}) == RightHeld(keys) && RightHeld(keys - {k}) == RightHeld(keys)
    ensures JumpHeld(keys + {k}) == JumpHeld(keys) && JumpHeld(keys - {k}) == JumpHeld(keys)
  {
  }

  predicate AllLower(keys: set<string>) { forall k :: k in keys ==> Lower(k) == k }

  /** The held-key set that the keydown and keyup handlers mutate in place. */
  class KeyTracker {
    var held: set<string>

    ghost predicate Valid() reads this { AllLower(held) }

    constructor ()
      ensures held == {} && Valid()
    {
      held := {};
    }

    /** keydown: add the lower-cased key, whatever it is; report whether the
        browser default is suppressed. */
    method KeyDown(key: string) returns (suppressDefault: bool)
      modifies this
      ensures held == old(held) + {Lower(key)}
      ensures suppressDefault <==> Lower(key) in RESERVED_KEYS
      ensures old(Valid()) ==> Valid()
    {
      var k := Lower(key);
      suppressDefault := k in RESERVED_KEYS;
      LowerIdempotent(key);
      held := held + {k};
    }

    /** keyup: remove the lower-cased key, whatever it is. */
    method KeyUp(key: string) returns (suppressDefault: bool)
      modifies this
      ensures held == old(held) - {Lower(key)}
      ensures suppressDefault <==> Lower(key) in RESERVED_KEYS
      ensures old(Valid()) ==> Valid()
    {
      var k := Lower(key);
      suppressDefault := k in RESERVED_KEYS;
      held := held - {k};
    }
  }

  /** A key pressed with one letter case is released by the same key with any
      other case: its lower-cased name leaves the set. */
  lemma {:induction false} ReleaseIgnoresCase(held: set<string>, down: string, up: string)
    requires Lower(down) == Lower(up)
    ensures Lower(up) !in (held + {Lower(down)}) - {Lower(up)}
    ensures (held + {Lower(down)}) - {Lower(up)} == held - {Lower(up)}
  {
  }

  /** Because every held name is already lower-case, a held key is removed
      by a release of that key in any letter case. */
  lemma ReleaseRemovesHeldKey(held: set<string>, k: string, up: string)
    requires AllLower(held) && k in held
    requires Lower(up) == Lower(k)
    ensures k !in held - {Lower(up)}
  {
  }

  /** Key names arrive capitalised as the browser reports them ("ArrowUp",
      or "A" with Shift or Caps Lock); lower-casing them is what lets the
      game loop's lower-case lookups see them. */
  lemma CapitalisedKeysSteer(held: set<string>)
    ensures LeftHeld(held + {Lower("A")})
    ensures RightHeld(held + {Lower("D")})
    ensures JumpHeld(held + {Lower("ArrowUp")})
  {
    assert Lower("A") == "a";
    assert Lower("D") == "d";
    assert Lower("ArrowUp") == "arrowup";
  }
}
