# Azeroth tile-world core, modelled in Dafny

Azeroth is a small 2D tile game. Its core, modelled here module by module:

- `Settings` (`main/Config.java`): reading the positive-integer properties,
  the window title, the derived tile and screen sizes, and the four movement
  key bindings, stopping at the first invalid property.
- `Keyboard` (`main/KeyHandler.java`): the four movement flags raised and
  lowered by key events through the configured bindings.
- `Entities` (`entity/Entity.java`): the entity state and its hitbox reset.
- `Collision` (`utils/CollisionChecker.java`): the prediction of a step
  against the two tiles at the leading edge of the hitbox.
- `Players` (`entity/Player.java`): the screen anchor, the hitbox, the walk
  frames and the per-tick update (face, probe, move unless blocked, animate).
- `Panel` (`main/GamePanel.java`): the panel's own collision-free position
  update and its fields.
- `Objects` and `Assets` (`objects/SuperObject.java`,
  `utils/AssetSetter.java`): object defaults, the camera transform and
  culling test of `draw`, and the fixed object placement.
- `Tiles` and `TileMaps` (`tile/Tile.java`, `tile/TileManager.java`): the
  map grid filled from the map file and drawn in row-major order.
- `TileLoading` and `SpriteLoading` (`utils/TileLoader.java`,
  `utils/SpriteLoader.java`): the line-by-line readers of the tile and
  sprite JSON files.

Shared modules: `Wrappers` (Option and Result), `JavaInt` (32-bit wrap-around
and Java's truncating division), `JavaString` (the `String` operations the
core calls: `trim`, `indexOf`, `lastIndexOf`, `contains`, `replace`,
`toUpperCase`, `Integer.parseInt`, `Boolean.parseBoolean`) and `Geometry`
(directions and one step of movement).

Classes whose fields the source updates in place (`KeyHandler`, `Entity`,
`Player`, `GamePanel`, `TileManager`) are Dafny classes. Their methods are
specified against pure functions of the state (`Press`, `Release`,
`RestoredHitbox`, `Tick`, `PanelStep`, `Loaded`, `CallAt`), and the
properties are proved as lemmas about those functions. The two loaders are
methods with loops, each proved equal to a fold of a one-line step function
(`TileStep`, `SpriteStep`). Every int the source computes is wrapped to 32
bits explicitly, and every division truncates toward zero as Java's does.

## Model

| member | source | states |
|---|---|---|
| Geometry.Move | src/entity/Player.java:107-122 | one step moves by `speed` along the direction's unit vector, in int arithmetic; the other coordinate is unchanged |
| Keyboard.Chosen | src/entity/Player.java:91-100 | the direction chosen from the flags, with priority UP > DOWN > LEFT > RIGHT; None exactly when no flag is held (each case an if-and-only-if) |
| Keyboard.UnboundCodeIgnored | src/main/KeyHandler.java:33-58 | a key code bound to no action changes no flag on press or release |
| Keyboard.PressThenRelease | src/main/KeyHandler.java:33-58 | pressing then releasing a code lowers exactly the flags it is bound to and leaves the others as they were |
| Keyboard.PressSetsBoundOnly | src/main/KeyHandler.java:33-41 | a press raises exactly the flags bound to the code and leaves the others unchanged |
| Keyboard.KeyHandler.constructor | src/main/KeyHandler.java:15 | all four flags start released |
| Keyboard.KeyHandler.KeyTyped | src/main/KeyHandler.java:22-24 | a typed key changes no flag |
| Keyboard.KeyHandler.KeyPressed | src/main/KeyHandler.java:33-41 | the new flags are the old flags with every action bound to the code raised |
| Keyboard.KeyHandler.KeyReleased | src/main/KeyHandler.java:50-58 | the new flags are the old flags with every action bound to the code lowered |
| Entities.RestoredHitbox | src/entity/Entity.java:44-47 | the hitbox offset returns to the stored defaults; its size and every other field are kept |
| Entities.RestoredHitboxIdempotent | src/entity/Entity.java:44-47 | resetting the hitbox twice is the same as resetting it once |
| Entities.Entity.constructor | src/entity/Entity.java:13-36 | field defaults: sprite counter 0, sprite number 1, collision off |
| Entities.Entity.ResetSolidArea | src/entity/Entity.java:44-47 | the new state is RestoredHitbox of the old state |
| Settings.ValidSizes | src/main/Config.java:70-72 | in a valid configuration the tile is positive and no larger than either screen dimension, and both fit in an int |
| Settings.ParsePositiveInt | src/main/Config.java:105-122 | success exactly when the property is present, not blank, and trims to a positive int literal, and the result is that literal's value (in 1..2^31-1); missing or blank gives the missing-property error, a non-integer the not-an-integer error and a value <= 0 the not-positive error, each if and only if |
| Settings.ParsePositiveIntShow | src/main/Config.java:105-122 | a property holding the decimal text of a positive int reads back as that int |
| Settings.BindKey | src/main/Config.java:137-160 | a missing or blank key name fails as not defined (if and only if); otherwise it succeeds exactly when the key-name lookup knows the trimmed, upper-cased name, with that code, and fails as an invalid key with that name when it does not |
| Settings.DerivedSizes | src/main/Config.java:70-72 | TILE_SIZE, SCREEN_WIDTH and SCREEN_HEIGHT are the exact products reduced modulo 2^32 into the int range |
| Settings.DerivedSizesExact | src/main/Config.java:70-72 | when the products fit in an int, the derived sizes are the exact products |
| Settings.Load | src/main/Config.java:56-94 | an unreadable file fails; on success every field is the parsed property, the bindings are the loaded ones, the sizes are the derived ones, and the title is the trimmed windowTitle or "Jogo" |
| Settings.LoadSucceeds | src/main/Config.java:56-94 | load succeeds exactly when all eight integer properties and all four key bindings are valid |
| Settings.DefaultTitle | src/main/Config.java:67 | without a windowTitle property the title is "Jogo" |
| Settings.TileSizeOverflow | src/main/Config.java:70 | with originalTileSize = scale = 65536, load accepts the file and TILE_SIZE is 0 |
| Settings.LoadChecked | src/main/Config.java:56-94 | load with the products checked: it accepts exactly the configurations load accepts that are Valid, and returns load's value for them; load's errors are kept; the only new error is the size overflow |
| Collision.HitboxEdges | src/utils/CollisionChecker.java:29-32 | the absolute hitbox edges are int values; without overflow, left/top sit at the hitbox offset and right-left (bottom-top) is the width (height) |
| Collision.ProbeIsLeadingCorners | src/utils/CollisionChecker.java:27-119 | the two probed tiles are the tiles of the two leading corners of the hitbox moved by `speed` in the facing direction |
| Collision.ProbedTilesContainCorners | src/utils/CollisionChecker.java:27-119 | for non-negative corners, each probed tile contains its leading corner after the step |
| Collision.CheckTile | src/utils/CollisionChecker.java:27-119 | collisionOn becomes true when either probed tile is solid and otherwise keeps its value; nothing else changes |
| Players.PlayerFrames | src/entity/Player.java:73-85 | the eight frames are defined exactly when all four directions are in the sprite map, and are frames 0 and 1 of each entry |
| Players.DrawnFrame | src/entity/Player.java:150-165 | frame 1 of the facing direction when spriteNumber is 1, frame 2 otherwise |
| Players.AnimationPeriod | src/entity/Player.java:124-129 | after k moving ticks from a counter c in 0..10, the counter is (c+k) mod 11 and the frame has toggled (c+k)/11 times |
| Players.ToggleOnEleventhTick | src/entity/Player.java:124-129 | from a fresh counter, ten moving ticks keep the frame and the eleventh toggles it and resets the counter |
| Players.Aimed | src/entity/Player.java:91-103 | before checkTile, the entity faces the chosen direction with collisionOn cleared, all else unchanged |
| Players.IdleTickChangesNothing | src/entity/Player.java:90-131 | with no key held, update changes nothing |
| Players.MovingTick | src/entity/Player.java:90-131 | on a moving tick: the facing follows the key priority, collisionOn is recomputed from the tiles alone, the animation advances whether or not the step is blocked, and speed and hitbox are unchanged |
| Players.BlockedTickKeepsPosition | src/entity/Player.java:102-122 | when a probed tile is solid, the position does not change and collisionOn is set |
| Players.ClearTickMoves | src/entity/Player.java:106-122 | when both probed tiles are clear, the position moves by `speed` along the facing direction and collisionOn stays off |
| Players.TickKeepsAnimationValid | src/entity/Player.java:124-129 | update keeps the counter in 0..10, the frame number in {1, 2} and every field an int |
| Players.Player.constructor | src/entity/Player.java:31-58 | on any configuration load produces: the screen anchor is half the screen minus half a tile, by Java's truncating division; the hitbox is at (8, 16) with side TILE_SIZE minus the offset, in int arithmetic; default values and frames are set; with a positive TILE_SIZE the player is ready for update |
| Players.Player.SetDefaultValues | src/entity/Player.java:63-68 | the configured start position and speed, facing down; nothing else changes |
| Players.Player.Update | src/entity/Player.java:90-131 | the new entity state is Tick of the old state and the held keys, and the player stays valid |
| Players.Player.Face | src/entity/Player.java:92-100 | the entity faces the chosen direction |
| Players.Player.MoveUnlessBlocked | src/entity/Player.java:106-122 | the entity is unmoved when collisionOn is set, otherwise it takes one step |
| Players.Player.AdvanceAnimation | src/entity/Player.java:124-129 | the counter and frame advance by one animation step |
| Players.Player.DrawPlayer | src/entity/Player.java:147-168 | the image is the facing direction's frame 1 or 2 by spriteNumber, always drawn at the screen anchor and TILE_SIZE wide and high |
| Panel.PanelIdle | src/main/GamePanel.java:91-101 | with no key held the panel's position is unchanged |
| Panel.PanelKeyEffects | src/main/GamePanel.java:91-101 | each key moves one coordinate by `speed`, by priority UP > DOWN > LEFT > RIGHT; at most one coordinate changes |
| Panel.PanelIsUnblockedTick | src/main/GamePanel.java:91-101 | on a tick whose probe finds no solid tile, the player's new position equals the panel's step |
| Panel.GamePanel.constructor | src/main/GamePanel.java:19-40 | for any configuration: the fields take the configured start position, speed and frame rate; the key handler is fresh and released |
| Panel.GamePanel.Update | src/main/GamePanel.java:91-101 | the new position is PanelStep of the old position and the held keys |
| Objects.NewObject | src/objects/SuperObject.java:12-28 | a new object sits at the origin with a 48x48 hitbox at offset 0; it blocks movement exactly when it is a door |
| Objects.Draw | src/objects/SuperObject.java:37-49 | the object is drawn exactly when the culling test passes, at its camera position |
| Objects.CameraIdentity | src/objects/SuperObject.java:38-39 | an object at the player's world position is drawn at the player's screen anchor |
| Objects.CameraShift | src/objects/SuperObject.java:38-39 | moving the object and the player by the same amount keeps the screen position |
| Objects.InViewWindow | src/objects/SuperObject.java:42-45 | without overflow, drawn exactly when the world position is strictly inside the window of half-width screenX + tileSize (screenY + tileSize) around the player |
| Objects.InViewOnScreen | src/objects/SuperObject.java:37-49 | without overflow, drawn exactly when the screen position is strictly between -tileSize and twice the anchor plus tileSize |
| Assets.SetObject | src/utils/AssetSetter.java:22-53 | slots 0..6 receive the three keys, three doors and one chest at their fixed tiles; the other slots are unchanged |
| Assets.SlotsOnGrid | src/utils/AssetSetter.java:22-53 | when 40 tiles fit in an int, every placed object sits at a non-negative multiple of the tile size, on its slot's tile |
| Assets.OnlyDoorsSolid | src/utils/AssetSetter.java:37-47 | exactly the door slots 3, 4 and 5 block movement |
| TileMaps.FirstFailure | src/tile/TileManager.java:51-91 | the stop cell is not before the start, lies inside the grid or is the end (0, rows), and is a cell that cannot be stored |
| TileMaps.StopIsFirst | src/tile/TileManager.java:62-82 | every cell between the start and the stop cell can be stored |
| TileMaps.NoFailureRunsToEnd | src/tile/TileManager.java:62-82 | when every remaining cell can be stored, the fill reaches the end of the grid |
| TileMaps.StopsAt | src/tile/TileManager.java:62-82 | a cell that cannot be stored, with every earlier remaining cell storable, is the stop cell |
| TileMaps.FillComplete | src/tile/TileManager.java:51-91 | when every cell can be stored, every cell holds its token's value |
| TileMaps.SameWindowSameStop | src/tile/TileManager.java:62-82 | two map files that agree inside the grid stop at the same cell |
| TileMaps.OnlyWindowMatters | src/tile/TileManager.java:51-91 | tokens outside the grid are never read: map files that agree inside it load identically |
| TileMaps.TimesIsProduct | src/tile/TileManager.java:119-126 | the pixel position accumulated by repeated addition of TILE_SIZE is the product |
| TileMaps.NextCall | src/tile/TileManager.java:110-127 | the k-th visit is cell (k mod cols, k div cols), inside the grid |
| TileMaps.TileManager.constructor | src/tile/TileManager.java:34-40 | for any tile size: a zeroed grid with the loaded tile types, then loaded from the map file |
| TileMaps.TileManager.LoadMap | src/tile/TileManager.java:51-91 | cells before the first failure hold their token's value and all others keep their contents; an unreadable file changes nothing |
| TileMaps.TileManager.Draw | src/tile/TileManager.java:103-129 | exactly cols * rows calls; the k-th draws cell (k mod cols, k div cols) at its pixel corner |
| TileLoading.ExtractValue | src/utils/TileLoader.java:77-81 | the value contains no quote and no comma |
| TileLoading.ExtractValueOf | src/utils/TileLoader.java:77-81 | a `"key": value` line, with or without quotes and trailing comma, gives back the value as written |
| TileLoading.AfterColon | src/utils/TileLoader.java:77-81 | only what follows the first colon is looked at |
| TileLoading.RemoveQuotes | src/utils/TileLoader.java:79 | removing the quotes drops exactly the quote characters around the value |
| TileLoading.IdHeader | src/utils/TileLoader.java:45-46 | a matching line starts with quoted, non-empty digits followed by `\s*:\s*{`; the result is those digits |
| TileLoading.HeaderTailOf | src/utils/TileLoader.java:45 | blanks, a colon, blanks and `{` form a header tail |
| TileLoading.IdHeaderOf | src/utils/TileLoader.java:45-46 | every line of quoted digits followed by a header tail is an id line for those digits (the converse of IdHeader) |
| TileLoading.ClosingQuote | src/utils/TileLoader.java:46 | the quote closing the digits is the first quote after the opening one |
| TileLoading.StepConsistent | src/utils/TileLoader.java:42-63 | every line keeps a stored current tile equal to its map entry |
| TileLoading.RunConsistent | src/utils/TileLoader.java:42-63 | so does the whole loop |
| TileLoading.IdLineStartsTile | src/utils/TileLoader.java:45-48 | an id line starts a new tile with that id, no image and collision off, and leaves the map alone |
| TileLoading.IdLineBadNumberFails | src/utils/TileLoader.java:45-46 | an id line whose digits exceed the int range fails with the bad-id error, where Integer.parseInt throws |
| TileLoading.IdLineOf | src/utils/TileLoader.java:45 | every line `"<digits>" <blanks> : <blanks> {` is an id line for those digits |
| TileLoading.CloseStoresTile | src/utils/TileLoader.java:60-62 | a closing line stores the current tile under its id, replacing any earlier entry |
| TileLoading.CollisionLineSetsFlag | src/utils/TileLoader.java:57-59 | a collision line sets the flag exactly when the value is "true" in any letter case, and updates a tile already stored |
| TileLoading.PropertyWithoutTileFails | src/utils/TileLoader.java:49-59 | a file or collision line before any id line fails |
| TileLoading.FileLineSetsImage | src/utils/TileLoader.java:49-56 | a file line naming an existing image sets the current tile's image to base path plus the extracted name, keeps its id and collision flag, and updates a tile already stored |
| TileLoading.MissingImageFails | src/utils/TileLoader.java:49-54 | a file line naming a missing image fails with that path |
| TileLoading.LoadTiles | src/utils/TileLoader.java:28-72 | the loop returns exactly the fold of the line step over the file, or the first line's error |
| SpriteLoading.SpriteStep | src/utils/SpriteLoader.java:43-72 | one line keeps the slot index at most 2 and the first slot filled once an image is in |
| SpriteLoading.AddImage | src/utils/SpriteLoader.java:64-70 | storing an image keeps that invariant |
| SpriteLoading.RunSprites | src/utils/SpriteLoader.java:43-72 | so does the whole loop |
| SpriteLoading.KeyLineSelects | src/utils/SpriteLoader.java:47-50 | a key line selects the upper-cased quoted name as direction and restarts the index, keeping the slots and the map |
| SpriteLoading.FileNameOf | src/utils/SpriteLoader.java:53-55 | the file name is the text between the first and the last quote |
| SpriteLoading.TwoImagesStorePair | src/utils/SpriteLoader.java:51-70 | after a key line, two image lines store the pair under the direction and empty the slots |
| SpriteLoading.ThirdImageFails | src/utils/SpriteLoader.java:64 | a third image after a stored pair fails |
| SpriteLoading.MissingSpriteImageFails | src/utils/SpriteLoader.java:57-61 | an image line whose resource is missing fails with the base path plus the file name, in any loader state |
| SpriteLoading.NoDirectionNoStore | src/utils/SpriteLoader.java:51-70 | while no direction has been selected, no line changes the map |
| SpriteLoading.OtherLinesIgnored | src/utils/SpriteLoader.java:43-72 | lines that are neither key nor image lines change nothing |
| SpriteLoading.FailureStops | src/utils/SpriteLoader.java:76-78 | the first line that throws ends the loop with its error |
| SpriteLoading.LoadSprites | src/utils/SpriteLoader.java:26-81 | the loop over the array buffer returns exactly the fold of the line step over the file, or the first line's error |
| SpriteLoading.ReadLine | src/utils/SpriteLoader.java:44-71 | one pass of the loop body on the array buffer is one line step |
| SpriteLoading.TakeImage | src/utils/SpriteLoader.java:63-70 | filling the next slot, and storing the pair at the second, is the function AddImage |

## Left out

- Input and output: the properties file, the JSON files and the map file are given as already-read values (a map, sequences of lines, sequences of tokens per line). A missing resource is None. Whether an image resource exists is the parameter `resourceExists`. Images are their resource paths. `ImageIO.read` returning null for an unreadable image is not modelled.
- Settings.BindKey: the key-name lookup (`KeyEvent.getExtendedKeyCodeForChar` and the reflection on `KeyEvent.VK_*`) is the parameter `keyCodeOf`.
- Settings.Load: the static initialiser, the error messages and `System.exit` are not modelled; an error is a `ConfigError` value. The config members the player reads but Config.java does not declare (COLLISION_BOX_OFFSET, WORLD_INITIAL_X/Y, the resource paths) are the parameter `PlayerSettings` or plain parameters.
- JavaString: `toUpperCase` is modelled for ASCII letters only and `Integer.parseInt` for ASCII digits only; Unicode case mapping and non-ASCII digits are not modelled. (`trim`, `isBlank` and the regex `\s` follow Java's own character sets.)
- TileMaps.TileManager.LoadMap: `split(" ")` is done before the map file reaches the model.
- TileMaps.TileManager.Draw requires every cell's tile id to be in the tile map, where Java throws a NullPointerException. It also requires cols * TILE_SIZE and rows * TILE_SIZE to fit in an int, so the accumulated pixel positions do not wrap.
- TileMaps.TileManager: `getTileNumber` and `hasCollision` are not part of this model. The collision checker takes them as the abstract functions of `Collision.TileWorld`.
- TileLoading.TileStep: a closing line before any id line leaves the state unchanged. Java puts a null key and a null tile into its HashMap there, and a map of int keys cannot hold that entry.
- Players.Player.constructor requires all four directions in the sprite map, where Java throws a NullPointerException on a missing one.
- Players.Player.Update and Collision.CheckTile require a positive TILE_SIZE. A configuration whose TILE_SIZE wraps to 0 makes Java's checkTile throw ArithmeticException; one that wraps to a negative value is not modelled. The corrected Settings.LoadChecked never produces either.
- Players.Player: `update`'s body is split into the helper methods `Face`, `MoveUnlessBlocked` and `AdvanceAnimation`. The collision checker is called with the player's entity: in Java a Player is an Entity, here a Player owns one.
- Entities.Entity: the hitbox is a value (`Rect`). The aliasing of the shared `Rectangle` object in Java is not captured.
- SpriteLoading.LoadSprites: the loop body is split into the helper methods `ReadLine` and `TakeImage`.
- Objects: OBJ_Key.java and OBJ_Chest.java are not part of this model. Their objects are taken not to block movement, as SuperObject's default says. Object names and images are not modelled.
- GamePanel.run, paintComponent, startGameThread, Sound, UI, FpsMonitor, GameState, GameLoopController and Main are not modelled: they are threads, timing, audio and Swing rendering.
- The animation toggles on every 11th moving tick, because the counter must pass 10. The comment in Player.java says every 10 frames; the model follows the code.

## Findings

| source | as written | input that shows it | evidently intended | confidence | as-written member | corrected member |
|---|---|---|---|---|---|---|
| src/main/Config.java:70-72 | TILE_SIZE, SCREEN_WIDTH and SCREEN_HEIGHT are int products of values that are only checked to be positive, so they can wrap around | originalTileSize = scale = 65536 passes validation and gives TILE_SIZE = 0 | reject a configuration whose derived sizes do not fit in an int, so that the tile size is positive and at most the screen size | not executed | Settings.TileSizeOverflow | Settings.LoadChecked |
