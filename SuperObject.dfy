/**
 * World objects (objects/SuperObject.java and its subclasses): their
 * default hitbox, and the camera transform and culling test of `draw`.
 */
module Objects {
  import opened Wrappers
  import opened JavaInt
  import opened Geometry

  /** The object classes: OBJ_Key, OBJ_Door, OBJ_Chest and OBJ_Boots. */
  datatype ObjectKind = Key | Door | Chest | Boots

  datatype SuperObject = SuperObject(
    kind: ObjectKind, collision: bool, worldX: int, worldY: int,
    solidArea: Rect, solidAreaDefaultX: int, solidAreaDefaultY: int)

  /**
   * A freshly constructed object: only a door blocks movement; every object
   * has a 48x48 hitbox at offset 0 and sits at the world origin.
   */
  function NewObject(kind: ObjectKind): (o: SuperObject)
    ensures o.kind == kind && (o.collision <==> kind == Door)
    ensures o.solidArea == Rect(0, 0, 48, 48) && o.solidAreaDefaultX == 0 && o.solidAreaDefaultY == 0
    ensures o.worldX == 0 && o.worldY == 0
  {
    SuperObject(kind, kind == Door, 0, 0, Rect(0, 0, 48, 48), 0, 0)
  }

  /** The player as an object's draw sees it: its world position and its fixed screen anchor. */
  datatype Viewer = Viewer(worldX: int, worldY: int, screenX: int, screenY: int)

  /** Where the object lands on screen: its offset from the player, added to the player's anchor. */
  function ScreenPosition(o: SuperObject, v: Viewer): (p: (int, int))
    ensures IsInt(p.0) && IsInt(p.1)
  {
    (Wrap(o.worldX - v.worldX + v.screenX), Wrap(o.worldY - v.worldY + v.screenY))
  }

  /** draw's culling test, evaluated in int arithmetic as written. */
  predicate InView(o: SuperObject, v: Viewer, tileSize: int) {
    && Wrap(o.worldX + tileSize) > Wrap(v.worldX - v.screenX)
    && Wrap(o.worldX - tileSize) < Wrap(v.worldX + v.screenX)
    && Wrap(o.worldY + tileSize) > Wrap(v.worldY - v.screenY)
    && Wrap(o.worldY - tileSize) < Wrap(v.worldY + v.screenY)
  }

  /** draw: the screen position the image is drawn at, or None when the object is culled. */
  function Draw(o: SuperObject, v: Viewer, tileSize: int): (r: Option<(int, int)>)
    ensures r.Some? <==> InView(o, v, tileSize)
    ensures r.Some? ==> r.value == ScreenPosition(o, v)
  {
    if InView(o, v, tileSize) then Some(ScreenPosition(o, v)) else None
  }

  /** The int arithmetic of the camera and the culling test does not overflow. */
  predicate NoOverflow(o: SuperObject, v: Viewer, tileSize: int) {
    && IsInt(o.worldX - v.worldX + v.screenX) && IsInt(o.worldY - v.worldY + v.screenY)
    && IsInt(o.worldX + tileSize) && IsInt(o.worldX - tileSize)
    && IsInt(o.worldY + tileSize) && IsInt(o.worldY - tileSize)
    && IsInt(v.worldX - v.screenX) && IsInt(v.worldX + v.screenX)
    && IsInt(v.worldY - v.screenY) && IsInt(v.worldY + v.screenY)
  }

  /** An object at the player's world position is drawn exactly at the player's screen anchor. */
  lemma CameraIdentity(o: SuperObject, v: Viewer)
    requires o.worldX == v.worldX && o.worldY == v.worldY
    requires IsInt(v.screenX) && IsInt(v.screenY)
    ensures ScreenPosition(o, v) == (v.screenX, v.screenY)
  {
  }

  /** Moving the object and the player by the same amount leaves the screen position unchanged. */
  lemma CameraShift(o: SuperObject, v: Viewer, dx: int, dy: int)
    ensures ScreenPosition(o.(worldX := o.worldX + dx, worldY := o.worldY + dy),
                           v.(worldX := v.worldX + dx, worldY := v.worldY + dy)) == ScreenPosition(o, v)
  {
    assert o.worldX + dx - (v.worldX + dx) + v.screenX == o.worldX - v.worldX + v.screenX;
    assert o.worldY + dy - (v.worldY + dy) + v.screenY == o.worldY - v.worldY + v.screenY;
  }

  /**
   * Without overflow, the object is drawn exactly when its world position lies
   * strictly inside the window of half-width screenX + tileSize (screenY +
   * tileSize) around the player.
   */
  lemma InViewWindow(o: SuperObject, v: Viewer, tileSize: int)
    requires NoOverflow(o, v, tileSize)
    ensures InView(o, v, tileSize) <==>
      && v.worldX - v.screenX - tileSize < o.worldX < v.worldX + v.screenX + tileSize
      && v.worldY - v.screenY - tileSize < o.worldY < v.worldY + v.screenY + tileSize
  {
  }

  /**
   * Equivalently, in screen terms: the object is drawn exactly when its
   * screen position is strictly between -tileSize and 2 * screenX + tileSize
   * (2 * screenY + tileSize), i.e. when some of its tile can reach the
   * panel around the player's anchor.
   */
  lemma InViewOnScreen(o: SuperObject, v: Viewer, tileSize: int)
    requires NoOverflow(o, v, tileSize)
    ensures var p := ScreenPosition(o, v);
      InView(o, v, tileSize) <==>
        -tileSize < p.0 < 2 * v.screenX + tileSize && -tileSize < p.1 < 2 * v.screenY + tileSize
  {
    InViewWindow(o, v, tileSize);
  }
}
