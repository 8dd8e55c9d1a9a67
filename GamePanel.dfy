/**
 * The panel's own position step (main/GamePanel.java): the earlier,
 * collision-free movement of a square player, driven by the same key flags.
 */
module Panel {
  import opened Wrappers
  import opened JavaInt
  import opened Geometry
  import opened Keyboard
  import opened Settings
  import opened Entities
  import opened Collision
  import Players

  /** The position after one update: a step of `speed` in the highest-priority held direction, if any. */
  function PanelStep(x: int, y: int, keys: KeyFlags, speed: int): (int, int)
    requires IsInt(x) && IsInt(y)
  {
    match Chosen(keys)
    case None => (x, y)
    case Some(d) => Move(x, y, d, speed)
  }

  /** With no key held the position stays where it is. */
  lemma PanelIdle(x: int, y: int, keys: KeyFlags, speed: int)
    requires IsInt(x) && IsInt(y) && !keys.Any()
    ensures PanelStep(x, y, keys, speed) == (x, y)
  {
  }

  /**
   * UP lowers y by `speed`, DOWN raises it, LEFT lowers x, RIGHT raises it,
   * in that priority; the other coordinate is untouched, so at most one
   * coordinate changes per call.
   */
  lemma PanelKeyEffects(x: int, y: int, keys: KeyFlags, speed: int)
    requires IsInt(x) && IsInt(y)
    requires IsInt(x - speed) && IsInt(x + speed) && IsInt(y - speed) && IsInt(y + speed)
    ensures keys.up ==> PanelStep(x, y, keys, speed) == (x, y - speed)
    ensures !keys.up && keys.down ==> PanelStep(x, y, keys, speed) == (x, y + speed)
    ensures !keys.up && !keys.down && keys.left ==> PanelStep(x, y, keys, speed) == (x - speed, y)
    ensures !keys.up && !keys.down && !keys.left && keys.right ==> PanelStep(x, y, keys, speed) == (x + speed, y)
    ensures PanelStep(x, y, keys, speed).0 == x || PanelStep(x, y, keys, speed).1 == y
  {
  }

  /**
   * The panel's step is the player's step with the collision check taken
   * away: on a tick whose probe finds nothing solid, the player moves to
   * exactly the position the panel would.
   */
  lemma PanelIsUnblockedTick(s: EntityState, keys: KeyFlags, w: TileWorld, tileSize: int)
    requires tileSize > 0 && Players.TickDefined(s, keys, w, tileSize)
    requires keys.Any() ==> !TileBlocked(Players.Aimed(s, Chosen(keys).value), w, tileSize)
    ensures var t := Players.Tick(s, keys, w, tileSize);
      (t.worldX, t.worldY) == PanelStep(s.worldX, s.worldY, keys, s.speed)
  {
  }

  class GamePanel {
    const keyH: KeyHandler
    var playerX: int
    var playerY: int
    const playerSpeed: int
    const fps: int

    /** The fields' initial values: a fresh key handler and the configured start, speed and frame rate. */
    constructor (cfg: Config)
      ensures fresh(keyH) && keyH.Flags() == Released
      ensures playerX == cfg.playerInitialX && playerY == cfg.playerInitialY
      ensures playerSpeed == cfg.playerSpeed && fps == cfg.fps
    {
      keyH := new KeyHandler();
      playerX := cfg.playerInitialX;
      playerY := cfg.playerInitialY;
      playerSpeed := cfg.playerSpeed;
      fps := cfg.fps;
    }

    /** update: move the square one step by the held keys; the keys and speed are left alone. */
    method Update()
      requires IsInt(playerX) && IsInt(playerY)
      modifies this`playerX, this`playerY
      ensures (playerX, playerY) == PanelStep(old(playerX), old(playerY), keyH.Flags(), playerSpeed)
      ensures IsInt(playerX) && IsInt(playerY)
    {
      if keyH.upPressed {
        playerY := Wrap(playerY - playerSpeed);
      } else if keyH.downPressed {
        playerY := Wrap(playerY + playerSpeed);
      } else if keyH.leftPressed {
        playerX := Wrap(playerX - playerSpeed);
      } else if keyH.rightPressed {
        playerX := Wrap(playerX + playerSpeed);
      }
    }
  }
}
