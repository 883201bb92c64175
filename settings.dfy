/** The game's constants: window size, tile size, animation rate and the
    draw depth of each named layer. */
module Settings {

  const WINDOW_WIDTH: int := 1280
  const WINDOW_HEIGHT: int := 720

  /** Side of one map tile, in pixels. */
  const TILE_SIZE: int := 64

  /** Animation frames advanced per second. */
  const ANIMATION_SPEED: int := 5

  /** The named draw layers; a larger depth is drawn later (in front). */
  datatype Layer = Bg | Clouds | BgTiles | Path | BgDetails | Main | Water | Fg

  function Depth(layer: Layer): int
  {
    match layer
    case Bg => 0
    case Clouds => 1
    case BgTiles => 2
    case Path => 3
    case BgDetails => 4
    case Main => 5
    case Water => 6
    case Fg => 7
  }
}
