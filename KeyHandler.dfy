/** The keyboard listener: four movement flags set and cleared by key events (main/KeyHandler.java). */
module Keyboard {
  import opened Wrappers
  import opened Geometry

  /** The four action flags upPressed, downPressed, leftPressed, rightPressed. */
  datatype KeyFlags = KeyFlags(up: bool, down: bool, left: bool, right: bool) {
    predicate Any() {
      up || down || left || right
    }
  }

  const Released: KeyFlags := KeyFlags(false, false, false, false)

  /** The key code bound to each movement action (Config.KEY_BINDINGS). */
  datatype KeyBindings = KeyBindings(up: int, down: int, left: int, right: int) {
    predicate Binds(code: int) {
      code == up || code == down || code == left || code == right
    }
  }

  /** The flags after keyPressed(code): every action bound to `code` becomes true. */
  function Press(k: KeyFlags, code: int, b: KeyBindings): KeyFlags {
    KeyFlags(k.up || code == b.up, k.down || code == b.down,
             k.left || code == b.left, k.right || code == b.right)
  }

  /** The flags after keyReleased(code): every action bound to `code` becomes false. */
  function Release(k: KeyFlags, code: int, b: KeyBindings): KeyFlags {
    KeyFlags(k.up && code != b.up, k.down && code != b.down,
             k.left && code != b.left, k.right && code != b.right)
  }

  /** A code bound to no action changes no flag, pressed or released. */
  lemma UnboundCodeIgnored(k: KeyFlags, code: int, b: KeyBindings)
    requires !b.Binds(code)
    ensures Press(k, code, b) == k && Release(k, code, b) == k
  {
  }

  /**
   * Pressing then releasing a code leaves the actions bound to it false and
   * every other action as it was before the press.
   */
  lemma PressThenRelease(k: KeyFlags, code: int, b: KeyBindings)
    ensures var r := Release(Press(k, code, b), code, b);
      && (r.up <==> k.up && code != b.up) && (r.down <==> k.down && code != b.down)
      && (r.left <==> k.left && code != b.left) && (r.right <==> k.right && code != b.right)
  {
  }

  /** Pressing a code sets the actions bound to it and leaves the others alone. */
  lemma PressSetsBoundOnly(k: KeyFlags, code: int, b: KeyBindings)
    ensures var p := Press(k, code, b);
      && (code == b.up ==> p.up) && (code != b.up ==> p.up == k.up)
      && (code == b.down ==> p.down) && (code != b.down ==> p.down == k.down)
      && (code == b.left ==> p.left) && (code != b.left ==> p.left == k.left)
      && (code == b.right ==> p.right) && (code != b.right ==> p.right == k.right)
  {
  }

  /** The direction a tick acts on when several keys are held: UP > DOWN > LEFT > RIGHT. */
  function Chosen(k: KeyFlags): (d: Option<Direction>)
    ensures d.None? <==> !k.Any()
    ensures d == Some(Up) <==> k.up
    ensures d == Some(Down) <==> !k.up && k.down
    ensures d == Some(Left) <==> !k.up && !k.down && k.left
    ensures d == Some(Right) <==> !k.up && !k.down && !k.left && k.right
  {
    if k.up then Some(Up)
    else if k.down then Some(Down)
    else if k.left then Some(Left)
    else if k.right then Some(Right)
    else None
  }

  class KeyHandler {
    var upPressed: bool
    var downPressed: bool
    var leftPressed: bool
    var rightPressed: bool

    function Flags(): KeyFlags
      reads this
    {
      KeyFlags(upPressed, downPressed, leftPressed, rightPressed)
    }

    /** All flags start false, as Java's boolean fields do. */
    constructor ()
      ensures Flags() == Released
    {
      upPressed, downPressed, leftPressed, rightPressed := false, false, false, false;
    }

    /** keyTyped is ignored. */
    method KeyTyped(code: int)
      ensures Flags() == old(Flags())
    {
    }

    method KeyPressed(code: int, bindings: KeyBindings)
      modifies this
      ensures Flags() == Press(old(Flags()), code, bindings)
    {
      if code == bindings.up { upPressed := true; }
      if code == bindings.down { downPressed := true; }
      if code == bindings.left { leftPressed := true; }
      if code == bindings.right { rightPressed := true; }
    }

    method KeyReleased(code: int, bindings: KeyBindings)
      modifies this
      ensures Flags() == Release(old(Flags()), code, bindings)
    {
      if code == bindings.up { upPressed := false; }
      if code == bindings.down { downPressed := false; }
      if code == bindings.left { leftPressed := false; }
      if code == bindings.right { rightPressed := false; }
    }
  }
}
