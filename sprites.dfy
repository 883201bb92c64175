/** The base sprite of the game (`Sprite` in sprites.py): a tile-sized
    rectangle placed at a position, with a copy of it kept as the previous
    frame's rectangle for swept collision. Sprite groups are named by `Group`;
    membership is the set of groups the sprite was added to. */
module Sprites {
  import opened Geometry
  import Settings

  /** The level's sprite groups. */
  datatype Group = AllSprites | CollisionSprites | SemiCollisionSprites | DamageSprites

  class Sprite {
    var rect: FRect
    /** The rectangle of the previous frame. `FRect` is a value, so this is a
        copy: later changes to `rect` leave it as it is. */
    var lastRect: FRect
    /** Draw depth, supplied by whoever creates the sprite. */
    var posZ: int
    var groups: set<Group>

    constructor (pos: Vec, groups: set<Group>, posZ: int)
      ensures rect.TopLeft() == pos
      ensures rect.w == Settings.TILE_SIZE as real && rect.h == Settings.TILE_SIZE as real
      ensures lastRect == rect
      ensures this.groups == groups && this.posZ == posZ
    {
      rect := FRect(pos.x, pos.y, Settings.TILE_SIZE as real, Settings.TILE_SIZE as real);
      lastRect := rect;
      this.groups := groups;
      this.posZ := posZ;
    }
  }
}
