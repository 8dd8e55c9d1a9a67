/** The fields every moving thing has, and resetSolidArea (entity/Entity.java). */
module Entities {
  import JavaInt
  import opened Geometry

  /** A snapshot of an Entity's fields (the sprite images live on Players.Player). */
  datatype EntityState = EntityState(
    worldX: int, worldY: int, speed: int, direction: Direction,
    spriteCounter: int, spriteNumber: int,
    solidAreaDefaultX: int, solidAreaDefaultY: int, solidArea: Rect,
    collisionOn: bool)
  {
    /** Every int field holds a Java int. */
    predicate IsJavaInts() {
      && JavaInt.IsInt(worldX) && JavaInt.IsInt(worldY) && JavaInt.IsInt(speed)
      && JavaInt.IsInt(spriteCounter) && JavaInt.IsInt(spriteNumber)
      && JavaInt.IsInt(solidAreaDefaultX) && JavaInt.IsInt(solidAreaDefaultY)
      && JavaInt.IsInt(solidArea.x) && JavaInt.IsInt(solidArea.y)
      && JavaInt.IsInt(solidArea.width) && JavaInt.IsInt(solidArea.height)
    }

    /** Between ticks the walk animation shows frame 1 or 2 and has counted at most 10 ticks. */
    predicate AnimationValid() {
      (spriteNumber == 1 || spriteNumber == 2) && 0 <= spriteCounter <= 10
    }
  }

  /** The state after resetSolidArea: the hitbox offset back at its stored default. */
  function RestoredHitbox(s: EntityState): (r: EntityState)
    ensures r.solidArea.x == s.solidAreaDefaultX && r.solidArea.y == s.solidAreaDefaultY
    ensures r.solidArea.width == s.solidArea.width && r.solidArea.height == s.solidArea.height
    ensures r.(solidArea := s.solidArea) == s
  {
    s.(solidArea := s.solidArea.(x := s.solidAreaDefaultX, y := s.solidAreaDefaultY))
  }

  /** Restoring the hitbox twice is the same as restoring it once. */
  lemma RestoredHitboxIdempotent(s: EntityState)
    ensures RestoredHitbox(RestoredHitbox(s)) == RestoredHitbox(s)
  {
  }

  class Entity {
    var worldX: int
    var worldY: int
    var speed: int
    var direction: Direction
    var spriteCounter: int
    var spriteNumber: int
    var solidAreaDefaultX: int
    var solidAreaDefaultY: int
    var solidArea: Rect
    var collisionOn: bool

    function State(): EntityState
      reads this
    {
      EntityState(worldX, worldY, speed, direction, spriteCounter, spriteNumber,
                  solidAreaDefaultX, solidAreaDefaultY, solidArea, collisionOn)
    }

    /**
     * Java's field defaults. Java leaves `direction` and `solidArea` null
     * until a subclass assigns them; here they start as Down and an empty
     * rectangle, and nothing is promised about them.
     */
    constructor ()
      ensures worldX == 0 && worldY == 0 && speed == 0
      ensures spriteCounter == 0 && spriteNumber == 1 && !collisionOn
      ensures solidAreaDefaultX == 0 && solidAreaDefaultY == 0
    {
      worldX, worldY, speed := 0, 0, 0;
      direction := Down;
      spriteCounter, spriteNumber := 0, 1;
      solidAreaDefaultX, solidAreaDefaultY := 0, 0;
      solidArea := Rect(0, 0, 0, 0);
      collisionOn := false;
    }

    method ResetSolidArea()
      modifies this`solidArea
      ensures State() == RestoredHitbox(old(State()))
    {
      solidArea := solidArea.(x := solidAreaDefaultX);
      solidArea := solidArea.(y := solidAreaDefaultY);
    }
  }
}
