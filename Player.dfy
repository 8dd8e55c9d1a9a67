/**
 * The player (entity/Player.java): a fixed screen anchor, and a per-tick
 * update that picks a direction from the held keys, probes the tiles ahead,
 * moves unless blocked and advances the two-frame walk animation.
 * Player extends Entity in Java; here a Player owns its Entity.
 */
module Players {
  import opened Wrappers
  import opened JavaInt
  import opened Geometry
  import opened Entities
  import opened Collision
  import opened Keyboard
  import opened Settings

  /**
   * Config members the player reads that the shown Config.java does not
   * declare: the hitbox inset and the starting world position.
   */
  datatype PlayerSettings = PlayerSettings(collisionBoxOffset: int, worldInitialX: int, worldInitialY: int)

  /** The eight walking frames, as image file names. */
  datatype WalkFrames = WalkFrames(
    up1: string, up2: string, down1: string, down2: string,
    left1: string, left2: string, right1: string, right2: string)

  /**
   * getPlayerImage: frames [0] and [1] of the "UP", "DOWN", "LEFT" and
   * "RIGHT" entries of the sprite map; None where Java dereferences a
   * missing entry.
   */
  function PlayerFrames(sprites: map<string, (string, string)>): (r: Option<WalkFrames>)
    ensures r.Some? <==> "UP" in sprites && "DOWN" in sprites && "LEFT" in sprites && "RIGHT" in sprites
    ensures r.Some? ==> (r.value.up1, r.value.up2) == sprites["UP"] && (r.value.right1, r.value.right2) == sprites["RIGHT"]
    ensures r.Some? ==> (r.value.down1, r.value.down2) == sprites["DOWN"] && (r.value.left1, r.value.left2) == sprites["LEFT"]
  {
    if "UP" in sprites && "DOWN" in sprites && "LEFT" in sprites && "RIGHT" in sprites then
      Some(WalkFrames(sprites["UP"].0, sprites["UP"].1, sprites["DOWN"].0, sprites["DOWN"].1,
                      sprites["LEFT"].0, sprites["LEFT"].1, sprites["RIGHT"].0, sprites["RIGHT"].1))
    else None
  }

  /** The two frames of one direction. */
  function FramesOf(f: WalkFrames, d: Direction): (string, string) {
    match d
    case Up => (f.up1, f.up2)
    case Down => (f.down1, f.down2)
    case Left => (f.left1, f.left2)
    case Right => (f.right1, f.right2)
  }

  /** drawPlayer's choice: frame 1 of the facing direction when spriteNumber is 1, frame 2 otherwise. */
  function DrawnFrame(f: WalkFrames, d: Direction, spriteNumber: int): (image: string)
    ensures image == if spriteNumber == 1 then FramesOf(f, d).0 else FramesOf(f, d).1
  {
    match d
    case Up => if spriteNumber == 1 then f.up1 else f.up2
    case Down => if spriteNumber == 1 then f.down1 else f.down2
    case Left => if spriteNumber == 1 then f.left1 else f.left2
    case Right => if spriteNumber == 1 then f.right1 else f.right2
  }

  /** One animation step: count the tick; past 10, toggle the frame and restart the count. */
  function Animate(spriteCounter: int, spriteNumber: int): (int, int) {
    var counter := Wrap(spriteCounter + 1);
    if counter > 10 then (0, if spriteNumber == 1 then 2 else 1) else (counter, spriteNumber)
  }

  /** The animation state after `k` moving ticks. */
  function AnimateTimes(spriteCounter: int, spriteNumber: int, k: nat): (int, int) {
    if k == 0 then (spriteCounter, spriteNumber)
    else
      var (c, n) := AnimateTimes(spriteCounter, spriteNumber, k - 1);
      Animate(c, n)
  }

  function Toggled(spriteNumber: int): int {
    if spriteNumber == 1 then 2 else 1
  }

  /**
   * The frame toggles on every 11th moving tick: after `k` moving ticks from
   * a counter `c` in 0..10, the counter is (c + k) mod 11 and the frame has
   * toggled (c + k) / 11 times.
   */
  lemma {:induction false} AnimationPeriod(c: int, n: int, k: nat)
    requires 0 <= c <= 10 && (n == 1 || n == 2)
    ensures AnimateTimes(c, n, k) == ((c + k) % 11, if (c + k) / 11 % 2 == 0 then n else Toggled(n))
  {
    if k > 0 {
      AnimationPeriod(c, n, k - 1);
      var m := c + k - 1;
      assert m % 11 + 1 == 11 ==> (m + 1) % 11 == 0 && (m + 1) / 11 == m / 11 + 1;
      assert m % 11 + 1 < 11 ==> (m + 1) % 11 == m % 11 + 1 && (m + 1) / 11 == m / 11;
    }
  }

  /** Ten moving ticks from a fresh counter leave the frame alone; the eleventh toggles it and restarts the count. */
  lemma ToggleOnEleventhTick(n: int)
    requires n == 1 || n == 2
    ensures AnimateTimes(0, n, 10) == (10, n)
    ensures AnimateTimes(0, n, 11) == (0, Toggled(n))
  {
    AnimationPeriod(0, n, 10);
    AnimationPeriod(0, n, 11);
  }

  /** The entity turned to face `d`, with its collision flag cleared, as update leaves it before checkTile. */
  function Aimed(s: EntityState, d: Direction): (a: EntityState)
    ensures a.direction == d && !a.collisionOn
    ensures a.(direction := s.direction, collisionOn := s.collisionOn) == s
  {
    s.(direction := d, collisionOn := false)
  }

  /** The entity state a tick is well defined on: its probe, if any, stays inside the grid. */
  predicate TickDefined(s: EntityState, keys: KeyFlags, w: TileWorld, tileSize: int)
    requires tileSize > 0
  {
    s.IsJavaInts() && (keys.Any() ==> ProbeInBounds(Aimed(s, Chosen(keys).value), w, tileSize))
  }

  /**
   * A moving tick facing `d`: stay put when `blocked`, otherwise step by
   * `speed`; record the collision flag; advance the animation.
   */
  function Step(s: EntityState, d: Direction, blocked: bool): EntityState
    requires s.IsJavaInts()
  {
    Animated(Moved(Aimed(s, d).(collisionOn := blocked)))
  }

  /** The entity after its step: unmoved when a collision is flagged, otherwise `speed` pixels ahead. */
  function Moved(s: EntityState): EntityState
    requires IsInt(s.worldX) && IsInt(s.worldY)
  {
    if s.collisionOn then s
    else
      var (x, y) := Move(s.worldX, s.worldY, s.direction, s.speed);
      s.(worldX := x, worldY := y)
  }

  /** The entity after one more animation tick. */
  function Animated(s: EntityState): EntityState {
    var (counter, number) := Animate(s.spriteCounter, s.spriteNumber);
    s.(spriteCounter := counter, spriteNumber := number)
  }

  /** Player.update as a function of the entity state and the held keys. */
  function Tick(s: EntityState, keys: KeyFlags, w: TileWorld, tileSize: int): EntityState
    requires tileSize > 0 && TickDefined(s, keys, w, tileSize)
  {
    match Chosen(keys)
    case None => s
    case Some(d) => Step(s, d, TileBlocked(Aimed(s, d), w, tileSize))
  }

  /** With no direction key held, a tick changes nothing. */
  lemma IdleTickChangesNothing(s: EntityState, keys: KeyFlags, w: TileWorld, tileSize: int)
    requires tileSize > 0 && TickDefined(s, keys, w, tileSize)
    requires !keys.Any()
    ensures Tick(s, keys, w, tileSize) == s
  {
  }

  /**
   * On a moving tick the entity faces the highest-priority held key
   * (UP > DOWN > LEFT > RIGHT); `collisionOn` is recomputed from the tiles
   * ahead alone, whatever it was before; and the animation advances whether
   * or not the step was blocked. Speed and hitbox never change.
   */
  lemma MovingTick(s: EntityState, keys: KeyFlags, w: TileWorld, tileSize: int)
    requires tileSize > 0 && TickDefined(s, keys, w, tileSize)
    requires keys.Any()
    ensures var t := Tick(s, keys, w, tileSize);
      && (keys.up ==> t.direction == Up)
      && (!keys.up && keys.down ==> t.direction == Down)
      && (!keys.up && !keys.down && keys.left ==> t.direction == Left)
      && (!keys.up && !keys.down && !keys.left ==> t.direction == Right)
      && t.collisionOn == TileBlocked(Aimed(s, t.direction), w, tileSize)
      && (t.spriteCounter, t.spriteNumber) == Animate(s.spriteCounter, s.spriteNumber)
      && t.speed == s.speed && t.solidArea == s.solidArea
      && t.solidAreaDefaultX == s.solidAreaDefaultX && t.solidAreaDefaultY == s.solidAreaDefaultY
  {
  }

  /** No tunnelling: when a probed tile ahead is solid the position does not change. */
  lemma BlockedTickKeepsPosition(s: EntityState, keys: KeyFlags, w: TileWorld, tileSize: int)
    requires tileSize > 0 && TickDefined(s, keys, w, tileSize)
    requires keys.Any() && TileBlocked(Aimed(s, Chosen(keys).value), w, tileSize)
    ensures Tick(s, keys, w, tileSize).worldX == s.worldX && Tick(s, keys, w, tileSize).worldY == s.worldY
    ensures Tick(s, keys, w, tileSize).collisionOn
  {
    MovingTick(s, keys, w, tileSize);
  }

  /**
   * When both probed tiles are clear, exactly one coordinate moves by
   * `speed`, with the sign of the chosen direction.
   */
  lemma ClearTickMoves(s: EntityState, keys: KeyFlags, w: TileWorld, tileSize: int)
    requires tileSize > 0 && TickDefined(s, keys, w, tileSize)
    requires keys.Any() && !TileBlocked(Aimed(s, Chosen(keys).value), w, tileSize)
    requires IsInt(s.worldX - s.speed) && IsInt(s.worldX + s.speed)
    requires IsInt(s.worldY - s.speed) && IsInt(s.worldY + s.speed)
    ensures var t := Tick(s, keys, w, tileSize);
      && t.worldX == s.worldX + Dx(t.direction) * s.speed
      && t.worldY == s.worldY + Dy(t.direction) * s.speed
      && !t.collisionOn
  {
    MovingTick(s, keys, w, tileSize);
  }

  /** A tick keeps the animation state in range. */
  lemma TickKeepsAnimationValid(s: EntityState, keys: KeyFlags, w: TileWorld, tileSize: int)
    requires tileSize > 0 && TickDefined(s, keys, w, tileSize)
    requires s.AnimationValid()
    ensures Tick(s, keys, w, tileSize).AnimationValid() && Tick(s, keys, w, tileSize).IsJavaInts()
  {
  }

  class Player {
    const body: Entity
    const keyH: KeyHandler
    const world: TileWorld
    const tileSize: int
    const playerSpeed: int
    const settings: PlayerSettings
    const frames: WalkFrames
    /** Where the player is always drawn: the screen centre minus half a tile. */
    const screenX: int
    const screenY: int

    ghost predicate Valid()
      reads this, body
    {
      tileSize > 0 && IsInt(playerSpeed)
      && IsInt(settings.worldInitialX) && IsInt(settings.worldInitialY)
      && body.State().IsJavaInts() && body.State().AnimationValid()
    }

    /**
     * The constructor: screen anchor, an 8/16-offset hitbox inset by the
     * collision-box offset, the default values and the walking frames. The
     * stored default offsets stay 0, as the source leaves them.
     */
    constructor (cfg: Config, keyH: KeyHandler, world: TileWorld, settings: PlayerSettings,
                 sprites: map<string, (string, string)>)
      requires cfg.InIntRange()
      requires IsInt(settings.worldInitialX) && IsInt(settings.worldInitialY) && IsInt(settings.collisionBoxOffset)
      requires PlayerFrames(sprites).Some?
      ensures cfg.tileSize > 0 ==> Valid()
      ensures fresh(body)
      ensures this.keyH == keyH && this.tileSize == cfg.tileSize && this.settings == settings
      ensures frames == PlayerFrames(sprites).value
      ensures screenX == Div(cfg.screenWidth, 2) - Div(cfg.tileSize, 2) && IsInt(screenX)
      ensures screenY == Div(cfg.screenHeight, 2) - Div(cfg.tileSize, 2) && IsInt(screenY)
      ensures body.State() == EntityState(
        settings.worldInitialX, settings.worldInitialY, cfg.playerSpeed, Down, 0, 1, 0, 0,
        Rect(8, 16, Wrap(cfg.tileSize - settings.collisionBoxOffset), Wrap(cfg.tileSize - settings.collisionBoxOffset)),
        false)
    {
      body := new Entity();
      this.keyH := keyH;
      this.world := world;
      this.tileSize := cfg.tileSize;
      this.playerSpeed := cfg.playerSpeed;
      this.settings := settings;
      HalfRange(cfg.screenWidth);
      HalfRange(cfg.screenHeight);
      HalfRange(cfg.tileSize);
      screenX := Div(cfg.screenWidth, 2) - Div(cfg.tileSize, 2);
      screenY := Div(cfg.screenHeight, 2) - Div(cfg.tileSize, 2);
      frames := PlayerFrames(sprites).value;
      new;
      var width := Wrap(cfg.tileSize - settings.collisionBoxOffset);
      body.solidArea := Rect(8, 16, width, width);
      SetDefaultValues();
    }

    /** setDefaultValues: the starting position, the configured speed, facing down. */
    method SetDefaultValues()
      requires IsInt(settings.worldInitialX) && IsInt(settings.worldInitialY) && IsInt(playerSpeed)
      modifies body
      ensures body.State() == old(body.State()).(
        worldX := settings.worldInitialX, worldY := settings.worldInitialY,
        speed := playerSpeed, direction := Down)
    {
      body.worldX := settings.worldInitialX;
      body.worldY := settings.worldInitialY;
      body.speed := playerSpeed;
      body.direction := Down;
    }

    /** update: one tick of movement and animation, as Tick describes it. */
    method Update()
      requires Valid()
      requires TickDefined(body.State(), keyH.Flags(), world, tileSize)
      modifies body
      ensures Valid()
      ensures body.State() == Tick(old(body.State()), keyH.Flags(), world, tileSize)
    {
      ghost var s := body.State();
      if keyH.upPressed || keyH.downPressed || keyH.leftPressed || keyH.rightPressed {
        ghost var d := Chosen(keyH.Flags()).value;
        Face();
        body.collisionOn := false;
        assert body.State() == Aimed(s, d);
        ghost var blocked := TileBlocked(Aimed(s, d), world, tileSize);
        CheckTile(body, world, tileSize);
        assert body.State() == Aimed(s, d).(collisionOn := blocked);
        MoveUnlessBlocked();
        AdvanceAnimation();
      } else {
        IdleTickChangesNothing(s, keyH.Flags(), world, tileSize);
      }
      TickKeepsAnimationValid(s, keyH.Flags(), world, tileSize);
    }

    /** The first part of update: face the first pressed key, in the order up, down, left, right. */
    method Face()
      requires Chosen(keyH.Flags()).Some?
      modifies body`direction
      ensures body.direction == Chosen(keyH.Flags()).value
    {
      if keyH.upPressed {
        body.direction := Up;
      } else if keyH.downPressed {
        body.direction := Down;
      } else if keyH.leftPressed {
        body.direction := Left;
      } else if keyH.rightPressed {
        body.direction := Right;
      }
    }

    /** The second part of update: step by `speed` in the facing direction unless a collision was flagged. */
    method MoveUnlessBlocked()
      requires IsInt(body.worldX) && IsInt(body.worldY)
      modifies body`worldX, body`worldY
      ensures body.State() == Moved(old(body.State()))
    {
      if !body.collisionOn {
        match body.direction
        case Up => body.worldY := Wrap(body.worldY - body.speed);
        case Down => body.worldY := Wrap(body.worldY + body.speed);
        case Left => body.worldX := Wrap(body.worldX - body.speed);
        case Right => body.worldX := Wrap(body.worldX + body.speed);
      }
    }

    /** The last part of update: count the tick and toggle the frame after more than ten. */
    method AdvanceAnimation()
      modifies body`spriteCounter, body`spriteNumber
      ensures body.State() == Animated(old(body.State()))
    {
      body.spriteCounter := Wrap(body.spriteCounter + 1);
      if body.spriteCounter > 10 {
        body.spriteNumber := if body.spriteNumber == 1 then 2 else 1;
        body.spriteCounter := 0;
      }
    }

    /** drawPlayer: the frame drawn, always at the screen anchor and one tile in size. */
    function DrawPlayer(): (call: (string, int, int, int))
      reads this, body
      ensures call.0 == if body.spriteNumber == 1 then FramesOf(frames, body.direction).0 else FramesOf(frames, body.direction).1
      ensures call.1 == screenX && call.2 == screenY && call.3 == tileSize
    {
      (DrawnFrame(frames, body.direction, body.spriteNumber), screenX, screenY, tileSize)
    }
  }
}
