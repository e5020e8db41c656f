/**
 * The control-state store and its input adapters (static/js/Keys.js).
 *
 * The shared `keys` record and the player fields it drives are mutable
 * objects, so they are classes here; every handler is a method with a
 * field-precise `modifies` clause. Beside each handler stands a function on
 * plain values (`MotionFlags`, `Avatar`) that specifies it, and the
 * properties of the handlers are proved about those functions.
 */
module Keys {

  /** The directions the gesture classifier reports for the tongue. */
  datatype TongueDirection = TongueLeft | TongueRight | TongueUp | TongueNeutral

  /** The directions the gesture classifier reports for the head tilt. */
  datatype HeadDirection = HeadLeft | HeadRight | HeadNeutral

  /** The value of the five motion entries of the `keys` record. */
  datatype MotionFlags = MotionFlags(
    tongueLeft: bool, tongueRight: bool, tongueUp: bool,
    headTiltLeft: bool, headTiltRight: bool)

  /**
   * The value of the player state the handlers see: `keys.a.pressed` and
   * `keys.d.pressed` of the player's own key record, `lastKey`,
   * `velocity.y` and `isAttacking`, which they write, and `inTheAir` and
   * `moveFactor`, which they only read.
   */
  datatype Avatar = Avatar(
    a: bool, d: bool, lastKey: string, velocityY: real,
    isAttacking: bool, inTheAir: bool, moveFactor: real)

  /** The key bindings that only act while the fallback keys are enabled. */
  const FallbackKeys: set<string> := {"ArrowRight", "ArrowLeft", "ArrowUp", "Control"}

  /** Every key the keydown handler reacts to. */
  const KeyDownBindings: set<string> := {"d", "a", "w", " "} + FallbackKeys

  /** Every key the keyup handler reacts to. */
  const KeyUpBindings: set<string> := {"d", "a", "ArrowRight", "ArrowLeft"}

  /** The upward impulse of a jump: `-moveFactor * 4`. */
  function JumpVelocity(moveFactor: real): real
  {
    -moveFactor * 4.0
  }

  /** A jump request: the impulse is applied only while the player is on the ground. */
  function Jump(p: Avatar): (r: Avatar)
    ensures !p.inTheAir ==> r.velocityY == JumpVelocity(p.moveFactor)
    ensures p.inTheAir ==> r == p
    ensures r.(velocityY := p.velocityY) == p
  {
    if !p.inTheAir then p.(velocityY := JumpVelocity(p.moveFactor)) else p
  }

  predicate AtMostOneTongueFlag(m: MotionFlags)
  {
    && !(m.tongueLeft && m.tongueRight)
    && !(m.tongueLeft && m.tongueUp)
    && !(m.tongueRight && m.tongueUp)
  }

  /** The motion flags after `handleTongueMovement(direction)`. */
  function TongueFlags(m: MotionFlags, direction: TongueDirection): (r: MotionFlags)
    ensures AtMostOneTongueFlag(r)
    ensures r.tongueLeft <==> direction == TongueLeft
    ensures r.tongueRight <==> direction == TongueRight
    ensures r.tongueUp <==> direction == TongueUp
    ensures r.headTiltLeft == m.headTiltLeft && r.headTiltRight == m.headTiltRight
  {
    var cleared := m.(tongueLeft := false, tongueRight := false, tongueUp := false);
    match direction
    case TongueLeft => cleared.(tongueLeft := true)
    case TongueRight => cleared.(tongueRight := true)
    case TongueUp => cleared.(tongueUp := true)
    case TongueNeutral => cleared
  }

  /** The player state after `handleTongueMovement(direction, player)`. */
  function TongueAvatar(p: Avatar, direction: TongueDirection): (r: Avatar)
    ensures direction == TongueLeft ==>
      r == p.(a := true, lastKey := "a")
    ensures direction == TongueRight ==>
      r == p.(d := true, lastKey := "d")
    ensures direction == TongueUp ==>
      r.(velocityY := p.velocityY) == p &&
      r.velocityY == (if p.inTheAir then p.velocityY else JumpVelocity(p.moveFactor))
    ensures direction == TongueNeutral ==>
      !r.a && !r.d && r.(a := p.a, d := p.d) == p
    ensures r.isAttacking == p.isAttacking && r.inTheAir == p.inTheAir && r.moveFactor == p.moveFactor
    ensures r.velocityY != p.velocityY ==> direction == TongueUp && !p.inTheAir
  {
    match direction
    case TongueLeft => p.(a := true, lastKey := "a")
    case TongueRight => p.(d := true, lastKey := "d")
    case TongueUp => Jump(p)
    case TongueNeutral => p.(a := false, d := false)
  }

  /** The motion flags after `handleHeadTilt(direction)`. */
  function HeadFlags(m: MotionFlags, direction: HeadDirection): (r: MotionFlags)
    ensures !(r.headTiltLeft && r.headTiltRight)
    ensures r.headTiltLeft <==> direction == HeadLeft
    ensures r.headTiltRight <==> direction == HeadRight
    ensures r.tongueLeft == m.tongueLeft && r.tongueRight == m.tongueRight && r.tongueUp == m.tongueUp
  {
    var cleared := m.(headTiltLeft := false, headTiltRight := false);
    match direction
    case HeadLeft => cleared.(headTiltLeft := true)
    case HeadRight => cleared.(headTiltRight := true)
    case HeadNeutral => cleared
  }

  /** The player state after `handleHeadTilt(direction, player)`. */
  function HeadAvatar(p: Avatar, direction: HeadDirection): (r: Avatar)
    ensures direction != HeadNeutral ==> r == p.(isAttacking := true, lastKey := " ")
    ensures direction == HeadNeutral ==> r == p
    ensures r.a == p.a && r.d == p.d && r.velocityY == p.velocityY
  {
    if direction == HeadNeutral then p else p.(isAttacking := true, lastKey := " ")
  }

  /** The player state after the keydown handler receives `key`. */
  function KeyDownAvatar(p: Avatar, key: string, fallbackKeysEnabled: bool): (r: Avatar)
    ensures key !in KeyDownBindings ==> r == p
    ensures !fallbackKeysEnabled && key in FallbackKeys ==> r == p
    ensures (key == "d" || (key == "ArrowRight" && fallbackKeysEnabled)) ==>
      r == p.(d := true, lastKey := "d")
    ensures (key == "a" || (key == "ArrowLeft" && fallbackKeysEnabled)) ==>
      r == p.(a := true, lastKey := "a")
    ensures (key == " " || (key == "Control" && fallbackKeysEnabled)) ==>
      r == p.(isAttacking := true, lastKey := " ")
    ensures (key == "w" || (key == "ArrowUp" && fallbackKeysEnabled)) ==> r == Jump(p)
    ensures r.velocityY != p.velocityY ==>
      !p.inTheAir && (key == "w" || (key == "ArrowUp" && fallbackKeysEnabled))
    ensures r.inTheAir == p.inTheAir && r.moveFactor == p.moveFactor
  {
    if key == "d" then p.(d := true, lastKey := "d")
    else if key == "a" then p.(a := true, lastKey := "a")
    else if key == "w" then Jump(p)
    else if key == " " then p.(isAttacking := true, lastKey := " ")
    else if key == "ArrowRight" then (if fallbackKeysEnabled then p.(d := true, lastKey := "d") else p)
    else if key == "ArrowLeft" then (if fallbackKeysEnabled then p.(a := true, lastKey := "a") else p)
    else if key == "ArrowUp" then (if fallbackKeysEnabled then Jump(p) else p)
    else if key == "Control" then (if fallbackKeysEnabled then p.(isAttacking := true, lastKey := " ") else p)
    else p
  }

  /** The player state after the keyup handler receives `key`. */
  function KeyUpAvatar(p: Avatar, key: string, fallbackKeysEnabled: bool): (r: Avatar)
    ensures r.(a := p.a, d := p.d) == p
    ensures r.a ==> p.a
    ensures r.d ==> p.d
    ensures r.a != p.a ==> key == "a" || (key == "ArrowLeft" && fallbackKeysEnabled)
    ensures r.d != p.d ==> key == "d" || (key == "ArrowRight" && fallbackKeysEnabled)
    ensures (key == "a" || (key == "ArrowLeft" && fallbackKeysEnabled)) ==> !r.a
    ensures (key == "d" || (key == "ArrowRight" && fallbackKeysEnabled)) ==> !r.d
    ensures key !in KeyUpBindings ==> r == p
    ensures !fallbackKeysEnabled && key in FallbackKeys ==> r == p
  {
    if key == "d" then p.(d := false)
    else if key == "a" then p.(a := false)
    else if key == "ArrowRight" then (if fallbackKeysEnabled then p.(d := false) else p)
    else if key == "ArrowLeft" then (if fallbackKeysEnabled then p.(a := false) else p)
    else p
  }

  /** The three jump paths (tongue up, `w`, enabled `ArrowUp`) act identically. */
  lemma JumpPathsAgree(p: Avatar)
    ensures TongueAvatar(p, TongueUp) == KeyDownAvatar(p, "w", false)
    ensures TongueAvatar(p, TongueUp) == KeyDownAvatar(p, "ArrowUp", true)
    ensures p.inTheAir ==> forall fallback: bool {:trigger KeyDownAvatar(p, "ArrowUp", fallback)} ::
      KeyDownAvatar(p, "w", fallback).velocityY == p.velocityY &&
      KeyDownAvatar(p, "ArrowUp", fallback).velocityY == p.velocityY &&
      TongueAvatar(p, TongueUp).velocityY == p.velocityY
  {
  }

  /**
   * Tongue `left` leaves `d` as it was, so a change from `right` straight to
   * `left` holds both `a` and `d`; `lastKey` then names the later direction.
   */
  lemma RightThenLeftHoldsBoth(p: Avatar)
    ensures var q := TongueAvatar(TongueAvatar(p, TongueRight), TongueLeft);
      q.a && q.d && q.lastKey == "a"
  {
  }

  /** Releasing a key that was just pressed clears it again. */
  lemma KeyUpUndoesKeyDown(p: Avatar, key: string, fallbackKeysEnabled: bool)
    requires key == "a" || key == "d"
    ensures var q := KeyUpAvatar(KeyDownAvatar(p, key, fallbackKeysEnabled), key, fallbackKeysEnabled);
      q == p.(a := if key == "a" then false else p.a, d := if key == "d" then false else p.d,
              lastKey := key)
  {
  }

  /** The shared `keys` record; each field is the `pressed` flag of one entry. */
  class KeyStates {
    var a: bool
    var d: bool
    var w: bool
    var tongueLeft: bool
    var tongueRight: bool
    var tongueUp: bool
    var headTiltLeft: bool
    var headTiltRight: bool

    /** Every entry starts released. */
    constructor ()
      ensures !a && !d && !w
      ensures Motion() == MotionFlags(false, false, false, false, false)
    {
      a, d, w := false, false, false;
      tongueLeft, tongueRight, tongueUp := false, false, false;
      headTiltLeft, headTiltRight := false, false;
    }

    function Motion(): MotionFlags
      reads this
    {
      MotionFlags(tongueLeft, tongueRight, tongueUp, headTiltLeft, headTiltRight)
    }
  }

  /**
   * The player fields this core reads and writes. `keys` is the player's own
   * key record; it may or may not be the shared `keys` record.
   */
  class Player {
    var keys: KeyStates
    var lastKey: string
    var velocityY: real
    var isAttacking: bool
    var inTheAir: bool
    var moveFactor: real

    constructor (keys: KeyStates, moveFactor: real)
      ensures this.keys == keys && this.moveFactor == moveFactor
      ensures lastKey == "" && velocityY == 0.0 && !isAttacking && !inTheAir
    {
      this.keys := keys;
      this.moveFactor := moveFactor;
      lastKey := "";
      velocityY := 0.0;
      isAttacking := false;
      inTheAir := false;
    }

    function View(): Avatar
      reads this, keys
    {
      Avatar(keys.a, keys.d, lastKey, velocityY, isAttacking, inTheAir, moveFactor)
    }
  }

  /** The keyboard adapter together with the `fallbackKeysEnabled` toggle. */
  class Keyboard {
    var fallbackKeysEnabled: bool

    /** The fallback keys start disabled. */
    constructor ()
      ensures !fallbackKeysEnabled
    {
      fallbackKeysEnabled := false;
    }

    method ToggleFallbackKeys()
      modifies this
      ensures fallbackKeysEnabled == !old(fallbackKeysEnabled)
    {
      fallbackKeysEnabled := !fallbackKeysEnabled;
    }

    /** The keydown handler registered by `loadKeyDownEvents`. */
    method KeyDown(key: string, player: Player)
      modifies player`lastKey, player`velocityY, player`isAttacking, player.keys`a, player.keys`d
      ensures player.View() == KeyDownAvatar(old(player.View()), key, fallbackKeysEnabled)
    {
      if key == "d" {
        player.keys.d := true;
        player.lastKey := "d";
      } else if key == "a" {
        player.keys.a := true;
        player.lastKey := "a";
      } else if key == "w" {
        if !player.inTheAir {
          player.velocityY := JumpVelocity(player.moveFactor);
        }
      } else if key == " " {
        player.isAttacking := true;
        player.lastKey := " ";
      } else if key == "ArrowRight" {
        if fallbackKeysEnabled {
          player.keys.d := true;
          player.lastKey := "d";
        }
      } else if key == "ArrowLeft" {
        if fallbackKeysEnabled {
          player.keys.a := true;
          player.lastKey := "a";
        }
      } else if key == "ArrowUp" {
        if fallbackKeysEnabled && !player.inTheAir {
          player.velocityY := JumpVelocity(player.moveFactor);
        }
      } else if key == "Control" {
        if fallbackKeysEnabled {
          player.isAttacking := true;
          player.lastKey := " ";
        }
      }
    }

    /** The keyup handler registered by `loadkeyUpEvents`: it only ever releases `a` or `d`. */
    method KeyUp(key: string, player: Player)
      modifies player.keys`a, player.keys`d
      ensures player.View() == KeyUpAvatar(old(player.View()), key, fallbackKeysEnabled)
    {
      if key == "d" {
        player.keys.d := false;
      } else if key == "a" {
        player.keys.a := false;
      } else if key == "ArrowRight" {
        if fallbackKeysEnabled {
          player.keys.d := false;
        }
      } else if key == "ArrowLeft" {
        if fallbackKeysEnabled {
          player.keys.a := false;
        }
      }
    }
  }

  /** Toggling the fallback keys twice restores the flag. */
  method ToggleTwice(keyboard: Keyboard)
    modifies keyboard
    ensures keyboard.fallbackKeysEnabled == old(keyboard.fallbackKeysEnabled)
  {
    keyboard.ToggleFallbackKeys();
    keyboard.ToggleFallbackKeys();
  }

  /** `handleTongueMovement`: clear the three tongue flags, then act on the direction. */
  method HandleTongueMovement(direction: TongueDirection, keys: KeyStates, player: Player)
    modifies keys`tongueLeft, keys`tongueRight, keys`tongueUp
    modifies player`lastKey, player`velocityY, player.keys`a, player.keys`d
    ensures keys.Motion() == TongueFlags(old(keys.Motion()), direction)
    ensures player.View() == TongueAvatar(old(player.View()), direction)
  {
    keys.tongueLeft := false;
    keys.tongueRight := false;
    keys.tongueUp := false;
    match direction {
      case TongueLeft =>
        keys.tongueLeft := true;
        player.keys.a := true;
        player.lastKey := "a";
      case TongueRight =>
        keys.tongueRight := true;
        player.keys.d := true;
        player.lastKey := "d";
      case TongueUp =>
        keys.tongueUp := true;
        if !player.inTheAir {
          player.velocityY := JumpVelocity(player.moveFactor);
        }
      case TongueNeutral =>
        player.keys.a := false;
        player.keys.d := false;
    }
  }

  /** `handleHeadTilt`: clear the two head flags, then act on the direction. */
  method HandleHeadTilt(direction: HeadDirection, keys: KeyStates, player: Player)
    modifies keys`headTiltLeft, keys`headTiltRight
    modifies player`lastKey, player`isAttacking
    ensures keys.Motion() == HeadFlags(old(keys.Motion()), direction)
    ensures player.View() == HeadAvatar(old(player.View()), direction)
  {
    keys.headTiltLeft := false;
    keys.headTiltRight := false;
    match direction {
      case HeadLeft =>
        keys.headTiltLeft := true;
        player.isAttacking := true;
        player.lastKey := " ";
      case HeadRight =>
        keys.headTiltRight := true;
        player.isAttacking := true;
        player.lastKey := " ";
      case HeadNeutral =>
    }
  }
}
