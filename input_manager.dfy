/**
 * Keyboard state: which keys are held, which went down this frame and
 * which came up this frame, keyed by `KeyboardEvent.code`.
 */
module Input {

  /** The codes whose browser default the game suppresses. */
  const GameKeys: seq<string> := ["KeyW", "KeyA", "KeyS", "KeyD", "ArrowUp", "ArrowDown", "ArrowLeft", "ArrowRight", "Space", "Escape"]

  /** `map.get(code) || false`: a missing key reads as false. */
  function Lookup(m: map<string, bool>, code: string): (r: bool)
  {
    code in m && m[code]
  }

  /** `isGameKey`: membership in the ten listed codes. */
  function IsGameKey(code: string): (r: bool)
  {
    code in GameKeys
  }

  lemma GameKeysAreTenDistinctCodes()
    ensures |GameKeys| == 10
    ensures forall i, j :: 0 <= i < j < |GameKeys| ==> GameKeys[i] != GameKeys[j]
  {
  }

  /** A movement direction on the ground plane; each component is -1, 0 or 1. */
  datatype Move = Move(x: int, z: int)

  class InputManager {
    var keys: map<string, bool>
    var keysPressed: map<string, bool>
    var keysReleased: map<string, bool>

    constructor ()
      ensures keys == map[] && keysPressed == map[] && keysReleased == map[]
    {
      keys := map[];
      keysPressed := map[];
      keysReleased := map[];
    }

    /**
     * `handleKeyDown`: the key is held from now on, and counts as pressed
     * this frame only if it was not already held (auto-repeat does not
     * fire again).  Returns whether the browser default is prevented.
     */
    method HandleKeyDown(code: string) returns (preventDefault: bool)
      modifies this
      ensures keys == old(keys)[code := true]
      ensures keysPressed == if Lookup(old(keys), code) then old(keysPressed) else old(keysPressed)[code := true]
      ensures keysReleased == old(keysReleased)
      ensures preventDefault == IsGameKey(code)
    {
      if !Lookup(keys, code) {
        keysPressed := keysPressed[code := true];
      }
      keys := keys[code := true];
      preventDefault := IsGameKey(code);
    }

    /** `handleKeyUp`: the key is no longer held and counts as released this frame. */
    method HandleKeyUp(code: string) returns (preventDefault: bool)
      modifies this
      ensures keys == old(keys)[code := false]
      ensures keysReleased == old(keysReleased)[code := true]
      ensures keysPressed == old(keysPressed)
      ensures preventDefault == IsGameKey(code)
    {
      keys := keys[code := false];
      keysReleased := keysReleased[code := true];
      preventDefault := IsGameKey(code);
    }

    /** `clearFrameStates`: forgets this frame's presses and releases, keeps held keys. */
    method ClearFrameStates()
      modifies this
      ensures keysPressed == map[] && keysReleased == map[]
      ensures keys == old(keys)
    {
      keysPressed := map[];
      keysReleased := map[];
    }

    function IsPressed(code: string): bool
      reads this
    {
      Lookup(keys, code)
    }

    function WasPressed(code: string): bool
      reads this
    {
      Lookup(keysPressed, code)
    }

    function WasReleased(code: string): bool
      reads this
    {
      Lookup(keysReleased, code)
    }

    /**
     * `getMovementVector`: A or Left is -1 on x and D or Right +1, W or Up is
     * -1 on z and S or Down +1; opposite directions cancel and two keys for
     * the same direction count once.
     */
    function MovementVector(): (m: Move)
      reads this
      ensures var left, right := IsPressed("KeyA") || IsPressed("ArrowLeft"), IsPressed("KeyD") || IsPressed("ArrowRight");
        && -1 <= m.x <= 1
        && (m.x == -1 <==> left && !right)
        && (m.x == 1 <==> right && !left)
      ensures var up, down := IsPressed("KeyW") || IsPressed("ArrowUp"), IsPressed("KeyS") || IsPressed("ArrowDown");
        && -1 <= m.z <= 1
        && (m.z == -1 <==> up && !down)
        && (m.z == 1 <==> down && !up)
    {
      var x := (if IsPressed("KeyA") || IsPressed("ArrowLeft") then -1 else 0) +
               (if IsPressed("KeyD") || IsPressed("ArrowRight") then 1 else 0);
      var z := (if IsPressed("KeyW") || IsPressed("ArrowUp") then -1 else 0) +
               (if IsPressed("KeyS") || IsPressed("ArrowDown") then 1 else 0);
      Move(x, z)
    }

    function IsAttackPressed(): (r: bool)
      reads this
    {
      WasPressed("Space")
    }

    function IsMenuPressed(): (r: bool)
      reads this
    {
      WasPressed("Escape")
    }
  }

  /** A key never seen reads as not held, not pressed and not released. */
  lemma UnseenKeyReadsFalse(im: InputManager, code: string)
    requires code !in im.keys && code !in im.keysPressed && code !in im.keysReleased
    ensures !im.IsPressed(code) && !im.WasPressed(code) && !im.WasReleased(code)
  {
  }

  /**
   * Holding a key: the first keydown registers a press, the browser's
   * auto-repeat keydown in the next frame does not, and the key stays held;
   * releasing it registers a release and ends the hold.
   */
  method HoldAndRelease() returns (firstFrame: bool, repeatFrame: bool, heldOnRepeat: bool, released: bool, heldAfter: bool)
    ensures firstFrame && !repeatFrame && heldOnRepeat && released && !heldAfter
  {
    var im := new InputManager();
    var _ := im.HandleKeyDown("Space");
    firstFrame := im.IsAttackPressed();
    im.ClearFrameStates();
    var _ := im.HandleKeyDown("Space");
    repeatFrame := im.IsAttackPressed();
    heldOnRepeat := im.IsPressed("Space");
    var _ := im.HandleKeyUp("Space");
    released := im.WasReleased("Space");
    heldAfter := im.IsPressed("Space");
  }

  /**
   * From any input state, a keydown makes the attack read true exactly when
   * it already was, or the key is Space and Space was not yet held: a fresh
   * press fires, an auto-repeat does not.
   */
  method AttackPressIsEdgeTriggered(im: InputManager, code: string) returns (fired: bool)
    modifies im
    ensures fired == im.IsAttackPressed()
    ensures fired <==> old(im.IsAttackPressed()) || (code == "Space" && !old(im.IsPressed("Space")))
    ensures im.IsPressed(code)
  {
    var _ := im.HandleKeyDown(code);
    fired := im.IsAttackPressed();
  }

  /** The same edge trigger for the menu key, Escape. */
  method MenuPressIsEdgeTriggered(im: InputManager, code: string) returns (fired: bool)
    modifies im
    ensures fired == im.IsMenuPressed()
    ensures fired <==> old(im.IsMenuPressed()) || (code == "Escape" && !old(im.IsPressed("Escape")))
    ensures im.IsPressed(code)
  {
    var _ := im.HandleKeyDown(code);
    fired := im.IsMenuPressed();
  }

  /** A keyup never produces an attack or menu press. */
  method KeyUpFiresNothing(im: InputManager, code: string) returns (attack: bool, menu: bool)
    modifies im
    ensures attack <==> old(im.IsAttackPressed())
    ensures menu <==> old(im.IsMenuPressed())
    ensures !im.IsPressed(code) && im.WasReleased(code)
  {
    var _ := im.HandleKeyUp(code);
    attack, menu := im.IsAttackPressed(), im.IsMenuPressed();
  }

  /** After the end-of-frame clear, no attack or menu press is pending, whatever the held keys. */
  method ClearedFrameFiresNothing(im: InputManager) returns (attack: bool, menu: bool)
    modifies im
    ensures !attack && !menu
    ensures !im.IsAttackPressed() && !im.IsMenuPressed()
    ensures forall code :: im.IsPressed(code) == old(im.IsPressed(code))
  {
    im.ClearFrameStates();
    attack, menu := im.IsAttackPressed(), im.IsMenuPressed();
  }
}
