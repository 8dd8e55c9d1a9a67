/**
 * Tile collision prediction (utils/CollisionChecker.java): before a step is
 * committed, the two tiles at the corners of the hitbox's leading edge,
 * pushed forward by `speed`, are looked up; a solid one sets `collisionOn`.
 */
module Collision {
  import opened JavaInt
  import opened Geometry
  import opened Entities

  /**
   * The tile grid as the checker queries it. The tile-number lookup and the
   * solidity test (TileManager.getTileNumber and hasCollision) are not part
   * of the shown sources and stay abstract; lookups are valid for
   * 0 <= col < cols and 0 <= row < rows.
   */
  datatype TileWorld = TileWorld(cols: int, rows: int, tileNumber: (int, int) -> int, hasCollision: int -> bool)

  datatype Cell = Cell(col: int, row: int)

  /** The absolute edges of the hitbox. */
  datatype Edges = Edges(left: int, right: int, top: int, bottom: int)

  /** The offset-form hitbox turned into absolute world edges, in int arithmetic. */
  function HitboxEdges(s: EntityState): (e: Edges)
    ensures IsInt(e.left) && IsInt(e.right) && IsInt(e.top) && IsInt(e.bottom)
    ensures IsInt(s.worldX + s.solidArea.x + s.solidArea.width) && IsInt(s.worldX + s.solidArea.x) ==>
      e.left - s.worldX == s.solidArea.x && e.right - e.left == s.solidArea.width
    ensures IsInt(s.worldY + s.solidArea.y + s.solidArea.height) && IsInt(s.worldY + s.solidArea.y) ==>
      e.top - s.worldY == s.solidArea.y && e.bottom - e.top == s.solidArea.height
  {
    Edges(Wrap(s.worldX + s.solidArea.x), Wrap(s.worldX + s.solidArea.x + s.solidArea.width),
          Wrap(s.worldY + s.solidArea.y), Wrap(s.worldY + s.solidArea.y + s.solidArea.height))
  }

  /** The tile holding a world pixel, by Java's truncating division. */
  function CellOf(x: int, y: int, tileSize: int): Cell
    requires tileSize > 0
  {
    Cell(Div(x, tileSize), Div(y, tileSize))
  }

  /** The two tiles checkTile looks up, as its four direction branches compute them. */
  function ProbeCells(s: EntityState, tileSize: int): (Cell, Cell)
    requires tileSize > 0
  {
    var e := HitboxEdges(s);
    var leftCol := Div(e.left, tileSize);
    var rightCol := Div(e.right, tileSize);
    var topRow := Div(e.top, tileSize);
    var bottomRow := Div(e.bottom, tileSize);
    match s.direction
    case Up =>
      var row := Div(Wrap(e.top - s.speed), tileSize);
      (Cell(leftCol, row), Cell(rightCol, row))
    case Down =>
      var row := Div(Wrap(e.bottom + s.speed), tileSize);
      (Cell(leftCol, row), Cell(rightCol, row))
    case Left =>
      var col := Div(Wrap(e.left - s.speed), tileSize);
      (Cell(col, topRow), Cell(col, bottomRow))
    case Right =>
      var col := Div(Wrap(e.right + s.speed), tileSize);
      (Cell(col, topRow), Cell(col, bottomRow))
  }

  /**
   * Reference formulation: move the whole hitbox by the direction's
   * displacement vector and take the two corners of the edge facing the
   * direction of travel.
   */
  function LeadingCorners(s: EntityState): ((int, int), (int, int)) {
    var e := HitboxEdges(s);
    var dx := Dx(s.direction) * s.speed;
    var dy := Dy(s.direction) * s.speed;
    var moved := Edges(Wrap(e.left + dx), Wrap(e.right + dx), Wrap(e.top + dy), Wrap(e.bottom + dy));
    if Dy(s.direction) < 0 then ((moved.left, moved.top), (moved.right, moved.top))
    else if Dy(s.direction) > 0 then ((moved.left, moved.bottom), (moved.right, moved.bottom))
    else if Dx(s.direction) < 0 then ((moved.left, moved.top), (moved.left, moved.bottom))
    else ((moved.right, moved.top), (moved.right, moved.bottom))
  }

  /**
   * checkTile samples exactly the tiles holding the two leading corners of
   * the displaced hitbox: only the leading edge is pushed by `speed`, the
   * lateral edges keep the unmoved position.
   */
  lemma ProbeIsLeadingCorners(s: EntityState, tileSize: int)
    requires tileSize > 0
    ensures var (a, b) := LeadingCorners(s);
      ProbeCells(s, tileSize) == (CellOf(a.0, a.1, tileSize), CellOf(b.0, b.1, tileSize))
  {
  }

  /** A tile contains a pixel with non-negative coordinates exactly when Java's division maps it there. */
  predicate TileContains(c: Cell, x: int, y: int, tileSize: int) {
    c.col * tileSize <= x < c.col * tileSize + tileSize && c.row * tileSize <= y < c.row * tileSize + tileSize
  }

  /**
   * For a hitbox in the non-negative quadrant, each probed tile is the tile
   * that contains the corresponding leading corner after the step.
   */
  lemma ProbedTilesContainCorners(s: EntityState, tileSize: int)
    requires tileSize > 0
    requires var (a, b) := LeadingCorners(s); a.0 >= 0 && a.1 >= 0 && b.0 >= 0 && b.1 >= 0
    ensures var (a, b) := LeadingCorners(s); var (c1, c2) := ProbeCells(s, tileSize);
      TileContains(c1, a.0, a.1, tileSize) && TileContains(c2, b.0, b.1, tileSize)
  {
    ProbeIsLeadingCorners(s, tileSize);
  }

  predicate InGrid(w: TileWorld, c: Cell) {
    0 <= c.col < w.cols && 0 <= c.row < w.rows
  }

  /** Both probed tiles lie inside the grid, so the lookups are defined. */
  predicate ProbeInBounds(s: EntityState, w: TileWorld, tileSize: int)
    requires tileSize > 0
  {
    var (c1, c2) := ProbeCells(s, tileSize);
    InGrid(w, c1) && InGrid(w, c2)
  }

  predicate Solid(w: TileWorld, c: Cell) {
    w.hasCollision(w.tileNumber(c.col, c.row))
  }

  /** Whether the step in the entity's direction would touch a solid tile. */
  predicate TileBlocked(s: EntityState, w: TileWorld, tileSize: int)
    requires tileSize > 0 && ProbeInBounds(s, w, tileSize)
  {
    var (c1, c2) := ProbeCells(s, tileSize);
    Solid(w, c1) || Solid(w, c2)
  }

  /**
   * checkTile: raise `collisionOn` when either probed tile is solid, and
   * otherwise leave it as it was. Nothing else is written.
   */
  method CheckTile(entity: Entity, w: TileWorld, tileSize: int)
    requires tileSize > 0
    requires ProbeInBounds(entity.State(), w, tileSize)
    modifies entity`collisionOn
    ensures entity.collisionOn == (old(entity.collisionOn) || TileBlocked(old(entity.State()), w, tileSize))
  {
    ghost var s := entity.State();
    var entityLeftWorldX := Wrap(entity.worldX + entity.solidArea.x);
    var entityRightWorldX := Wrap(entity.worldX + entity.solidArea.x + entity.solidArea.width);
    var entityTopWorldY := Wrap(entity.worldY + entity.solidArea.y);
    var entityBottomWorldY := Wrap(entity.worldY + entity.solidArea.y + entity.solidArea.height);

    var entityLeftCol := Div(entityLeftWorldX, tileSize);
    var entityRightCol := Div(entityRightWorldX, tileSize);
    var entityTopRow := Div(entityTopWorldY, tileSize);
    var entityBottomRow := Div(entityBottomWorldY, tileSize);

    assert HitboxEdges(s) == Edges(entityLeftWorldX, entityRightWorldX, entityTopWorldY, entityBottomWorldY);
    var tileNum1, tileNum2;
    match entity.direction
    case Up =>
      entityTopRow := Div(Wrap(entityTopWorldY - entity.speed), tileSize);
      assert ProbeCells(s, tileSize) == (Cell(entityLeftCol, entityTopRow), Cell(entityRightCol, entityTopRow));
      tileNum1 := w.tileNumber(entityLeftCol, entityTopRow);
      tileNum2 := w.tileNumber(entityRightCol, entityTopRow);
      if w.hasCollision(tileNum1) || w.hasCollision(tileNum2) {
        entity.collisionOn := true;
      }
    case Down =>
      entityBottomRow := Div(Wrap(entityBottomWorldY + entity.speed), tileSize);
      assert ProbeCells(s, tileSize) == (Cell(entityLeftCol, entityBottomRow), Cell(entityRightCol, entityBottomRow));
      tileNum1 := w.tileNumber(entityLeftCol, entityBottomRow);
      tileNum2 := w.tileNumber(entityRightCol, entityBottomRow);
      if w.hasCollision(tileNum1) || w.hasCollision(tileNum2) {
        entity.collisionOn := true;
      }
    case Left =>
      entityLeftCol := Div(Wrap(entityLeftWorldX - entity.speed), tileSize);
      assert ProbeCells(s, tileSize) == (Cell(entityLeftCol, entityTopRow), Cell(entityLeftCol, entityBottomRow));
      tileNum1 := w.tileNumber(entityLeftCol, entityTopRow);
      tileNum2 := w.tileNumber(entityLeftCol, entityBottomRow);
      if w.hasCollision(tileNum1) || w.hasCollision(tileNum2) {
        entity.collisionOn := true;
      }
    case Right =>
      entityRightCol := Div(Wrap(entityRightWorldX + entity.speed), tileSize);
      assert ProbeCells(s, tileSize) == (Cell(entityRightCol, entityTopRow), Cell(entityRightCol, entityBottomRow));
      tileNum1 := w.tileNumber(entityRightCol, entityTopRow);
      tileNum2 := w.tileNumber(entityRightCol, entityBottomRow);
      if w.hasCollision(tileNum1) || w.hasCollision(tileNum2) {
        entity.collisionOn := true;
      }
  }
}
