/** The fixed object placement of utils/AssetSetter.java. */
module Assets {
  import opened Wrappers
  import opened JavaInt
  import opened Objects

  /** Slot by slot: the kind and the tile column and row it is placed on. */
  const Layout: seq<(ObjectKind, int, int)> := [
    (Key, 23, 7), (Key, 23, 40), (Key, 38, 8),
    (Door, 10, 11), (Door, 8, 28), (Door, 12, 22),
    (Chest, 10, 7)]

  /** A new object of `kind` moved to the pixel corner of tile (col, row). */
  function Placed(kind: ObjectKind, col: int, row: int, tileSize: int): SuperObject {
    NewObject(kind).(worldX := Wrap(col * tileSize), worldY := Wrap(row * tileSize))
  }

  /** The object setObject puts in slot `i`. */
  function SlotObject(i: int, tileSize: int): SuperObject
    requires 0 <= i < |Layout|
  {
    Placed(Layout[i].0, Layout[i].1, Layout[i].2, tileSize)
  }

  /**
   * setObject: slots 0..6 receive three keys, three doors and a chest at
   * their fixed tiles; every other slot is left as it was.
   */
  method SetObject(obj: array<Option<SuperObject>>, tileSize: int)
    requires obj.Length >= |Layout|
    modifies obj
    ensures forall i :: 0 <= i < |Layout| ==> obj[i] == Some(SlotObject(i, tileSize))
    ensures obj[|Layout|..] == old(obj[|Layout|..])
  {
    obj[0] := Some(Placed(Key, 23, 7, tileSize));
    obj[1] := Some(Placed(Key, 23, 40, tileSize));
    obj[2] := Some(Placed(Key, 38, 8, tileSize));
    obj[3] := Some(Placed(Door, 10, 11, tileSize));
    obj[4] := Some(Placed(Door, 8, 28, tileSize));
    obj[5] := Some(Placed(Door, 12, 22, tileSize));
    obj[6] := Some(Placed(Chest, 10, 7, tileSize));
    forall i | 0 <= i < |Layout|
      ensures obj[i] == Some(SlotObject(i, tileSize))
    {
      if i == 0 {} else if i == 1 {} else if i == 2 {} else if i == 3 {} else if i == 4 {} else if i == 5 {}
    }
  }

  /**
   * With a positive tile size small enough that 40 tiles fit in an int,
   * every placed object sits at a non-negative multiple of the tile size,
   * on the tile its slot names.
   */
  lemma SlotsOnGrid(tileSize: int, i: int)
    requires 0 < tileSize && 40 * tileSize <= MAX && 0 <= i < |Layout|
    ensures var o := SlotObject(i, tileSize);
      && 0 <= o.worldX && o.worldX % tileSize == 0 && o.worldX / tileSize == Layout[i].1
      && 0 <= o.worldY && o.worldY % tileSize == 0 && o.worldY / tileSize == Layout[i].2
  {
    var (kind, col, row) := Layout[i];
    assert 0 <= col <= 40 && 0 <= row <= 40;
    assert 0 <= col * tileSize <= 40 * tileSize;
    assert 0 <= row * tileSize <= 40 * tileSize;
    DivModUnique(col * tileSize, tileSize, col, 0);
    DivModUnique(row * tileSize, tileSize, row, 0);
  }

  /** Exactly the door slots 3, 4 and 5 block movement. */
  lemma OnlyDoorsSolid(tileSize: int, i: int)
    requires 0 <= i < |Layout|
    ensures SlotObject(i, tileSize).collision <==> 3 <= i <= 5
  {
  }
}
