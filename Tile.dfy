/** One tile type (tile/Tile.java): its image, here a resource path, and whether it blocks movement. */
module Tiles {
  import opened Wrappers

  datatype Tile = Tile(image: Option<string>, collision: bool)

  /** `new Tile()`: no image yet, and walkable. */
  const NewTile: Tile := Tile(None, false)
}
