/** Building a level from its map (`Level._initialize` in level.py): which
    sprites each map layer and object produces, where, at which depth and in
    which sprite groups. The map is given as plain records: the grid cells of
    the four tile layers and the objects of the three object layers. The
    random animation speed of palms is passed in as a jitter in [-1, 1] per
    object. */
module Levels {
  import opened Geometry
  import opened Sprites
  import Settings

  datatype Option<T> = None | Some(value: T)

  /** The tile layers, built in the order BG, Terrain, FG, Platforms. */
  datatype TileLayer = BG | Terrain | FG | Platforms

  datatype Cell = Cell(col: int, row: int)

  /** An object of the map, with the custom properties the level reads. */
  datatype MapObject = MapObject(name: string, x: real, y: real, width: real, height: real,
                                 inverted: bool, platform: bool, speed: real)

  datatype LevelMap = LevelMap(bg: seq<Cell>, terrain: seq<Cell>, fg: seq<Cell>, platforms: seq<Cell>,
                               details: seq<MapObject>, objects: seq<MapObject>, movers: seq<MapObject>)

  datatype Axis = X | Y

  /** What is created: a plain tile, a still or animated object (`flipped`
      for upside-down spikes), or a sprite moving between two anchors. */
  datatype Kind =
    | Tile
    | Still(name: string)
    | Animated(name: string, speed: real, flipped: bool)
    | Mover(name: string, axis: Axis, start: Vec, end: Vec, speed: real)

  datatype Spawn = Spawn(kind: Kind, pos: Vec, posZ: int, groups: set<Group>)

  /** Python's `part in s` on strings. */
  predicate Contains(s: string, part: string)
    decreases |s|
  {
    (|part| <= |s| && s[..|part|] == part) || (s != [] && Contains(s[1..], part))
  }

  /** Offset of a candle's light from the candle. */
  const CANDLE_LIGHT_SHIFT: Vec := Vec(-20.0, -20.0)

  // ---------------------------------------------------------------- tile layers

  function TileGroups(layer: TileLayer): (g: set<Group>)
    ensures AllSprites in g && DamageSprites !in g
    ensures CollisionSprites in g <==> layer == Terrain
    ensures SemiCollisionSprites in g <==> layer == Platforms
  {
    if layer == Terrain then {AllSprites, CollisionSprites}
    else if layer == Platforms then {AllSprites, SemiCollisionSprites}
    else {AllSprites}
  }

  /** Background and foreground tiles are drawn at the background-tile depth,
      terrain and platforms at the main depth. */
  function TileDepth(layer: TileLayer): (z: int)
    ensures layer == BG || layer == FG ==> z == Settings.Depth(Settings.BgTiles)
    ensures layer == Terrain || layer == Platforms ==> z == Settings.Depth(Settings.Main)
  {
    if layer == BG || layer == FG then Settings.Depth(Settings.BgTiles) else Settings.Depth(Settings.Main)
  }

  /** The pixel position of a grid cell. */
  function CellOrigin(c: Cell): Vec
  {
    Vec((c.col * Settings.TILE_SIZE) as real, (c.row * Settings.TILE_SIZE) as real)
  }

  /** The tiles of one layer, in map order. */
  function TileSpawns(layer: TileLayer, cells: seq<Cell>): (r: seq<Spawn>)
    ensures |r| == |cells|
    decreases |cells|
  {
    if cells == [] then []
    else
      var n := |cells| - 1;
      TileSpawns(layer, cells[..n]) + [Spawn(Tile, CellOrigin(cells[n]), TileDepth(layer), TileGroups(layer))]
  }

  /** The second pass over the terrain: each terrain cell again, as a solid
      sprite at the default (main) depth. */
  function TerrainRepeat(cells: seq<Cell>): (r: seq<Spawn>)
    ensures |r| == |cells|
    decreases |cells|
  {
    if cells == [] then []
    else
      var n := |cells| - 1;
      TerrainRepeat(cells[..n]) + [Spawn(Tile, CellOrigin(cells[n]), Settings.Depth(Settings.Main), {AllSprites, CollisionSprites})]
  }

  /** The `i`-th tile of a layer sits at the pixel position of the `i`-th
      cell, with the layer's depth and groups. */
  lemma {:induction false} TileSpawnAt(layer: TileLayer, cells: seq<Cell>, i: int)
    requires 0 <= i < |cells|
    ensures TileSpawns(layer, cells)[i] == Spawn(Tile, CellOrigin(cells[i]), TileDepth(layer), TileGroups(layer))
    decreases |cells|
  {
    var n := |cells| - 1;
    if i < n {
      TileSpawnAt(layer, cells[..n], i);
    }
  }

  /** The `i`-th sprite of the terrain pass is a solid tile at the `i`-th cell. */
  lemma {:induction false} TerrainRepeatAt(cells: seq<Cell>, i: int)
    requires 0 <= i < |cells|
    ensures TerrainRepeat(cells)[i] == Spawn(Tile, CellOrigin(cells[i]), Settings.Depth(Settings.Main), {AllSprites, CollisionSprites})
    decreases |cells|
  {
    var n := |cells| - 1;
    if i < n {
      TerrainRepeatAt(cells[..n], i);
    }
  }

  function LayerCells(m: LevelMap, layer: TileLayer): seq<Cell>
  {
    match layer
    case BG => m.bg
    case Terrain => m.terrain
    case FG => m.fg
    case Platforms => m.platforms
  }

  /** The tile layers in build order. */
  const TILE_LAYERS: seq<TileLayer> := [BG, Terrain, FG, Platforms]

  /** The tiles of the given layers, layer after layer. */
  function LayersSpawns(m: LevelMap, layers: seq<TileLayer>): seq<Spawn>
    decreases |layers|
  {
    if layers == [] then []
    else
      var n := |layers| - 1;
      LayersSpawns(m, layers[..n]) + TileSpawns(layers[n], LayerCells(m, layers[n]))
  }

  /** Building the first `k + 1` layers is building the first `k` and then layer `k`.
      An unfolding step of `LayersSpawns`, used by the loop of `AddTileLayers`. */
  lemma LayerStep(m: LevelMap, layers: seq<TileLayer>, k: int)
    requires 0 <= k < |layers|
    ensures LayersSpawns(m, layers[..k + 1])
      == LayersSpawns(m, layers[..k]) + TileSpawns(layers[k], LayerCells(m, layers[k]))
  {
    assert layers[..k + 1][..k] == layers[..k];
  }

  // ---------------------------------------------------------------- background details

  /** A background detail: a still sprite for "static", otherwise an animated
      one, plus a light for a candle, shifted up and left by 20 pixels. All
      are drawn at the background-tile depth and belong to no other group. */
  function DetailSpawns(o: MapObject): (r: seq<Spawn>)
    ensures |r| == (if o.name == "candle" then 2 else 1)
    ensures forall s :: s in r ==> s.posZ == Settings.Depth(Settings.BgTiles) && s.groups == {AllSprites}
    ensures r[0].pos == Vec(o.x, o.y)
    ensures r[0].kind.Still? <==> o.name == "static"
    ensures o.name == "static" ==> r[0].kind == Still(o.name)
    ensures o.name != "static" ==> r[0].kind == Animated(o.name, Settings.ANIMATION_SPEED as real, false)
    ensures o.name == "candle" ==>
      r[1] == Spawn(Animated("candle_light", Settings.ANIMATION_SPEED as real, false),
                    Vec(o.x - 20.0, o.y - 20.0), Settings.Depth(Settings.BgTiles), {AllSprites})
  {
    var at := Vec(o.x, o.y);
    var z := Settings.Depth(Settings.BgTiles);
    if o.name == "static" then
      [Spawn(Still(o.name), at, z, {AllSprites})]
    else
      [Spawn(Animated(o.name, Settings.ANIMATION_SPEED as real, false), at, z, {AllSprites})]
      + (if o.name == "candle"
         then [Spawn(Animated("candle_light", Settings.ANIMATION_SPEED as real, false), at.Plus(CANDLE_LIGHT_SHIFT), z, {AllSprites})]
         else [])
  }

  function AllDetailSpawns(objs: seq<MapObject>): seq<Spawn>
    decreases |objs|
  {
    if objs == [] then [] else AllDetailSpawns(objs[..|objs| - 1]) + DetailSpawns(objs[|objs| - 1])
  }

  // ---------------------------------------------------------------- objects

  /** Groups of an animated object or a barrel or crate: barrels and crates
      are solid, palm tops are one-way platforms, saws and floor spikes hurt. */
  function ObjectGroups(name: string): (g: set<Group>)
    ensures AllSprites in g
    ensures CollisionSprites in g <==> name == "barrel" || name == "crate"
    ensures SemiCollisionSprites in g <==> name == "palm_small" || name == "palm_large"
    ensures DamageSprites in g <==> name == "saw" || name == "floor_spike"
  {
    if name == "barrel" || name == "crate" then {AllSprites, CollisionSprites}
    else
      {AllSprites}
      + (if name == "palm_small" || name == "palm_large" then {SemiCollisionSprites} else {})
      + (if name == "saw" || name == "floor_spike" then {DamageSprites} else {})
  }

  /** An object whose name mentions "bg" is drawn at the background-detail
      depth, any other at the main depth. */
  function ObjectDepth(name: string): (z: int)
    ensures Contains(name, "bg") ==> z == Settings.Depth(Settings.BgDetails)
    ensures !Contains(name, "bg") ==> z == Settings.Depth(Settings.Main)
  {
    if Contains(name, "bg") then Settings.Depth(Settings.BgDetails) else Settings.Depth(Settings.Main)
  }

  /** Palms animate at the standard rate shifted by the jitter, so at most one
      frame per second faster or slower; everything else at the standard rate. */
  function AnimationSpeed(name: string, jitter: real): (speed: real)
    requires -1.0 <= jitter <= 1.0
    ensures !Contains(name, "palm") ==> speed == Settings.ANIMATION_SPEED as real
    ensures Contains(name, "palm") ==>
      Settings.ANIMATION_SPEED as real - 1.0 <= speed <= Settings.ANIMATION_SPEED as real + 1.0
  {
    if Contains(name, "palm") then Settings.ANIMATION_SPEED as real + jitter else Settings.ANIMATION_SPEED as real
  }

  /** An object of the "Objects" layer: the player's start creates no sprite
      here; a barrel or crate is a still solid sprite; anything else is an
      animated sprite, flipped upside down for an inverted floor spike. */
  function ObjectSpawns(o: MapObject, jitter: real): (r: seq<Spawn>)
    requires -1.0 <= jitter <= 1.0
    ensures |r| == (if o.name == "player" then 0 else 1)
    ensures |r| == 1 ==> r[0].pos == Vec(o.x, o.y) && AllSprites in r[0].groups
    ensures |r| == 1 ==> (CollisionSprites in r[0].groups <==> o.name == "barrel" || o.name == "crate")
    ensures |r| == 1 && r[0].kind.Animated? ==> (r[0].kind.flipped <==> o.name == "floor_spike" && o.inverted)
    ensures |r| == 1 ==> (r[0].kind.Still? <==> o.name == "barrel" || o.name == "crate")
    ensures |r| == 1 && (o.name == "barrel" || o.name == "crate") ==>
              r[0] == Spawn(Still(o.name), Vec(o.x, o.y), Settings.Depth(Settings.Main), ObjectGroups(o.name))
    ensures |r| == 1 && o.name != "barrel" && o.name != "crate" ==>
      r[0].kind.Animated? && r[0].kind.name == o.name && r[0].posZ == ObjectDepth(o.name)
      && r[0].groups == ObjectGroups(o.name) && r[0].kind.speed == AnimationSpeed(o.name, jitter)
  {
    var at := Vec(o.x, o.y);
    if o.name == "player" then []
    else if o.name == "barrel" || o.name == "crate" then
      [Spawn(Still(o.name), at, Settings.Depth(Settings.Main), {AllSprites, CollisionSprites})]
    else
      [Spawn(Animated(o.name, AnimationSpeed(o.name, jitter), o.name == "floor_spike" && o.inverted),
             at, ObjectDepth(o.name), ObjectGroups(o.name))]
  }

  ghost predicate Jitters(objs: seq<MapObject>, jitters: seq<real>)
  {
    |jitters| == |objs| && forall i :: 0 <= i < |jitters| ==> -1.0 <= jitters[i] <= 1.0
  }

  function AllObjectSpawns(objs: seq<MapObject>, jitters: seq<real>): seq<Spawn>
    requires Jitters(objs, jitters)
    decreases |objs|
  {
    if objs == [] then []
    else
      var n := |objs| - 1;
      AllObjectSpawns(objs[..n], jitters[..n]) + ObjectSpawns(objs[n], jitters[n])
  }

  /** Building the first `k + 1` objects is building the first `k` and then object `k`.
      An unfolding step of `AllObjectSpawns` and `PlayerStart`, used by the loop of `AddObjects`. */
  lemma ObjectStep(objs: seq<MapObject>, jitters: seq<real>, k: int)
    requires Jitters(objs, jitters) && 0 <= k < |objs|
    ensures Jitters(objs[..k + 1], jitters[..k + 1]) && Jitters(objs[..k], jitters[..k])
    ensures AllObjectSpawns(objs[..k + 1], jitters[..k + 1])
      == AllObjectSpawns(objs[..k], jitters[..k]) + ObjectSpawns(objs[k], jitters[k])
    ensures PlayerStart(objs[..k + 1])
      == if objs[k].name == "player" then Some(Vec(objs[k].x, objs[k].y)) else PlayerStart(objs[..k])
  {
    var os, js := objs[..k + 1], jitters[..k + 1];
    assert os[..k] == objs[..k] && js[..k] == jitters[..k];
  }

  /** Where the player starts: the last "player" object, if there is one. */
  function PlayerStart(objs: seq<MapObject>): (p: Option<Vec>)
    ensures p.None? <==> forall i :: 0 <= i < |objs| ==> objs[i].name != "player"
    ensures p.Some? ==>
              exists i :: 0 <= i < |objs| && objs[i].name == "player" && p.value == Vec(objs[i].x, objs[i].y)
                          && forall j :: i < j < |objs| ==> objs[j].name != "player"
    decreases |objs|
  {
    if objs == [] then None
    else if objs[|objs| - 1].name == "player" then Some(Vec(objs[|objs| - 1].x, objs[|objs| - 1].y))
    else PlayerStart(objs[..|objs| - 1])
  }

  // ---------------------------------------------------------------- moving objects

  /** A moving object travels along the longer side of its map rectangle,
      through the rectangle's middle: horizontally when it is wider than
      tall, else vertically. The two anchors are the ends of that middle
      line, so their midpoint is the rectangle's centre. */
  function Anchors(o: MapObject): (r: (Axis, Vec, Vec))
    ensures r.0 == X <==> o.width > o.height
    ensures (r.1.x + r.2.x) / 2.0 == o.x + o.width / 2.0 && (r.1.y + r.2.y) / 2.0 == o.y + o.height / 2.0
    ensures r.0 == X ==> r.1.y == r.2.y && r.2.x - r.1.x == o.width
    ensures r.0 == Y ==> r.1.x == r.2.x && r.2.y - r.1.y == o.height
  {
    if o.width > o.height then
      (X, Vec(o.x, o.y + o.height / 2.0), Vec(o.x + o.width, o.y + o.height / 2.0))
    else
      (Y, Vec(o.x + o.width / 2.0, o.y), Vec(o.x + o.width / 2.0, o.y + o.height))
  }

  /** A moving platform is a one-way platform; any other mover hurts. */
  function MoverGroups(o: MapObject): (g: set<Group>)
    ensures AllSprites in g && CollisionSprites !in g
    ensures SemiCollisionSprites in g <==> o.platform
    ensures DamageSprites in g <==> !o.platform
  {
    if o.platform then {AllSprites, SemiCollisionSprites} else {AllSprites, DamageSprites}
  }

  /** A moving object of the "Moving Objects" layer; spikes are skipped. The
      sprite starts at its first anchor. */
  function MoverSpawns(o: MapObject): (r: seq<Spawn>)
    ensures |r| == (if o.name == "spike" then 0 else 1)
    ensures |r| == 1 ==> r[0].kind.Mover? && r[0].pos == r[0].kind.start && r[0].groups == MoverGroups(o)
    ensures |r| == 1 ==>
              r[0].kind == Mover(o.name, Anchors(o).0, Anchors(o).1, Anchors(o).2, o.speed)
              && r[0].posZ == Settings.Depth(Settings.Main)
  {
    if o.name == "spike" then []
    else
      var (axis, start, end) := Anchors(o);
      [Spawn(Mover(o.name, axis, start, end, o.speed), start, Settings.Depth(Settings.Main), MoverGroups(o))]
  }

  function AllMoverSpawns(objs: seq<MapObject>): seq<Spawn>
    decreases |objs|
  {
    if objs == [] then [] else AllMoverSpawns(objs[..|objs| - 1]) + MoverSpawns(objs[|objs| - 1])
  }

  // ---------------------------------------------------------------- the whole level

  /** Every sprite of the level, in creation order. */
  function LevelSpawns(m: LevelMap, jitters: seq<real>): seq<Spawn>
    requires Jitters(m.objects, jitters)
  {
    LayersSpawns(m, TILE_LAYERS) + TerrainRepeat(m.terrain)
    + AllDetailSpawns(m.details) + AllObjectSpawns(m.objects, jitters) + AllMoverSpawns(m.movers)
  }

  /** The members of group `g` among `s`, in order. */
  function Members(s: seq<Spawn>, g: Group): seq<Spawn>
    decreases |s|
  {
    if s == [] then []
    else Members(s[..|s| - 1], g) + (if g in s[|s| - 1].groups then [s[|s| - 1]] else [])
  }

  lemma {:induction false} MembersAppend(a: seq<Spawn>, b: seq<Spawn>, g: Group)
    ensures Members(a + b, g) == Members(a, g) + Members(b, g)
    decreases |b|
  {
    if b != [] {
      var n := |b| - 1;
      var last := if g in b[n].groups then [b[n]] else [];
      assert (a + b)[..|a + b| - 1] == a + b[..n];
      assert (a + b)[|a + b| - 1] == b[n];
      calc {
        Members(a + b, g);
        Members(a + b[..n], g) + last;
        { MembersAppend(a, b[..n], g); }
        (Members(a, g) + Members(b[..n], g)) + last;
        Members(a, g) + (Members(b[..n], g) + last);
        Members(a, g) + Members(b, g);
      }
    } else {
      assert a + b == a;
    }
  }

  /** Number of barrels and crates among the objects. */
  function SolidObjects(objs: seq<MapObject>): nat
    decreases |objs|
  {
    if objs == [] then 0
    else SolidObjects(objs[..|objs| - 1]) + (if objs[|objs| - 1].name in {"barrel", "crate"} then 1 else 0)
  }

  lemma {:induction false} TileCollisions(layer: TileLayer, cells: seq<Cell>)
    ensures |Members(TileSpawns(layer, cells), CollisionSprites)| == (if layer == Terrain then |cells| else 0)
    decreases |cells|
  {
    if cells != [] {
      var n := |cells| - 1;
      var s := TileSpawns(layer, cells);
      assert s[..|s| - 1] == TileSpawns(layer, cells[..n]);
      TileCollisions(layer, cells[..n]);
    }
  }

  lemma {:induction false} RepeatCollisions(cells: seq<Cell>)
    ensures |Members(TerrainRepeat(cells), CollisionSprites)| == |cells|
    decreases |cells|
  {
    if cells != [] {
      var n := |cells| - 1;
      var s := TerrainRepeat(cells);
      assert s[..|s| - 1] == TerrainRepeat(cells[..n]);
      RepeatCollisions(cells[..n]);
    }
  }

  lemma {:induction false} DetailCollisions(objs: seq<MapObject>)
    ensures Members(AllDetailSpawns(objs), CollisionSprites) == []
    decreases |objs|
  {
    if objs != [] {
      var n := |objs| - 1;
      var d := DetailSpawns(objs[n]);
      DetailCollisions(objs[..n]);
      MembersAppend(AllDetailSpawns(objs[..n]), d, CollisionSprites);
      if |d| == 2 {
        assert d == [d[0]] + [d[1]];
        MembersAppend([d[0]], [d[1]], CollisionSprites);
        assert [d[0]][..0] == [] && [d[1]][..0] == [];
      } else {
        assert [d[0]][..0] == [];
      }
    }
  }

  lemma {:induction false} ObjectCollisions(objs: seq<MapObject>, jitters: seq<real>)
    requires Jitters(objs, jitters)
    ensures |Members(AllObjectSpawns(objs, jitters), CollisionSprites)| == SolidObjects(objs)
    decreases |objs|
  {
    if objs != [] {
      var n := |objs| - 1;
      var o := ObjectSpawns(objs[n], jitters[n]);
      assert Jitters(objs[..n], jitters[..n]);
      var before := AllObjectSpawns(objs[..n], jitters[..n]);
      assert AllObjectSpawns(objs, jitters) == before + o;
      ObjectCollisions(objs[..n], jitters[..n]);
      MembersAppend(before, o, CollisionSprites);
      ObjectSolid(objs[n], jitters[n]);
      assert SolidObjects(objs) == SolidObjects(objs[..n]) + (if objs[n].name in {"barrel", "crate"} then 1 else 0);
    }
  }

  /** One object adds one solid sprite exactly when it is a barrel or a crate. */
  lemma ObjectSolid(o: MapObject, jitter: real)
    requires -1.0 <= jitter <= 1.0
    ensures |Members(ObjectSpawns(o, jitter), CollisionSprites)| == (if o.name in {"barrel", "crate"} then 1 else 0)
  {
    var r := ObjectSpawns(o, jitter);
    if |r| == 1 {
      assert r[..0] == [];
    }
  }

  lemma {:induction false} MoverCollisions(objs: seq<MapObject>)
    ensures Members(AllMoverSpawns(objs), CollisionSprites) == []
    decreases |objs|
  {
    if objs != [] {
      var n := |objs| - 1;
      var o := MoverSpawns(objs[n]);
      MoverCollisions(objs[..n]);
      MembersAppend(AllMoverSpawns(objs[..n]), o, CollisionSprites);
      if |o| == 1 {
        assert o[..0] == [];
      }
    }
  }

  /** The tile-layer pass, layer by layer: `LayersSpawns` unfolded over the
      four tile layers, used by `LayerCollisions`. */
  lemma TileLayersInOrder(m: LevelMap)
    ensures LayersSpawns(m, TILE_LAYERS) ==
      TileSpawns(BG, m.bg) + TileSpawns(Terrain, m.terrain) + TileSpawns(FG, m.fg) + TileSpawns(Platforms, m.platforms)
  {
    var bg, te, fg, pl := TileSpawns(BG, m.bg), TileSpawns(Terrain, m.terrain), TileSpawns(FG, m.fg), TileSpawns(Platforms, m.platforms);
    assert [BG][..0] == [];
    assert LayersSpawns(m, [BG]) == [] + bg == bg;
    assert [BG, Terrain][..1] == [BG];
    assert LayersSpawns(m, [BG, Terrain]) == bg + te;
    assert [BG, Terrain, FG][..2] == [BG, Terrain];
    assert LayersSpawns(m, [BG, Terrain, FG]) == bg + te + fg;
    assert TILE_LAYERS[..3] == [BG, Terrain, FG];
  }

  lemma LayerCollisions(m: LevelMap)
    ensures |Members(LayersSpawns(m, TILE_LAYERS), CollisionSprites)| == |m.terrain|
  {
    TileLayersInOrder(m);
    var bg, te, fg, pl := TileSpawns(BG, m.bg), TileSpawns(Terrain, m.terrain), TileSpawns(FG, m.fg), TileSpawns(Platforms, m.platforms);
    TileCollisions(BG, m.bg);
    TileCollisions(Terrain, m.terrain);
    TileCollisions(FG, m.fg);
    TileCollisions(Platforms, m.platforms);
    MembersAppend(bg, te, CollisionSprites);
    MembersAppend(bg + te, fg, CollisionSprites);
    MembersAppend(bg + te + fg, pl, CollisionSprites);
  }

  /** The solid group of a level holds every terrain tile twice, once from
      the tile-layer pass and once from the terrain pass, plus one sprite per
      barrel or crate, and nothing else. */
  lemma CollisionCount(m: LevelMap, jitters: seq<real>)
    requires Jitters(m.objects, jitters)
    ensures |Members(LevelSpawns(m, jitters), CollisionSprites)| == 2 * |m.terrain| + SolidObjects(m.objects)
  {
    var c := CollisionSprites;
    var la, re := LayersSpawns(m, TILE_LAYERS), TerrainRepeat(m.terrain);
    var de, ob, mo := AllDetailSpawns(m.details), AllObjectSpawns(m.objects, jitters), AllMoverSpawns(m.movers);
    LayerCollisions(m);
    RepeatCollisions(m.terrain);
    MembersAppend(la, re, c);
    assert |Members(la + re, c)| == 2 * |m.terrain|;
    DetailCollisions(m.details);
    MembersAppend(la + re, de, c);
    assert |Members(la + re + de, c)| == 2 * |m.terrain|;
    ObjectCollisions(m.objects, jitters);
    MembersAppend(la + re + de, ob, c);
    assert |Members(la + re + de + ob, c)| == 2 * |m.terrain| + SolidObjects(m.objects);
    MoverCollisions(m.movers);
    MembersAppend(la + re + de + ob, mo, c);
  }

  /** The level's sprite groups. `sprites` holds every sprite in creation
      order; each other group holds the sprites that joined it, in the same
      order. */
  class Level {
    var sprites: seq<Spawn>
    var collisionSprites: seq<Spawn>
    var semiCollisionSprites: seq<Spawn>
    var damageSprites: seq<Spawn>
    var playerStart: Option<Vec>

    ghost predicate Valid()
      reads this
    {
      && (forall i :: 0 <= i < |sprites| ==> AllSprites in sprites[i].groups)
      && collisionSprites == Members(sprites, CollisionSprites)
      && semiCollisionSprites == Members(sprites, SemiCollisionSprites)
      && damageSprites == Members(sprites, DamageSprites)
    }

    /** `Level.__init__` with `_initialize`: empty groups, then every layer of
        the map in order. */
    constructor (m: LevelMap, jitters: seq<real>)
      requires Jitters(m.objects, jitters)
      ensures Valid()
      ensures sprites == LevelSpawns(m, jitters)
      ensures playerStart == PlayerStart(m.objects)
    {
      sprites, collisionSprites, semiCollisionSprites, damageSprites := [], [], [], [];
      playerStart := None;
      new;
      Initialize(m, jitters);
    }

    /** `_initialize`: the four tile layers, the terrain again, the
        background details, the objects and the moving objects. */
    method Initialize(m: LevelMap, jitters: seq<real>)
      requires Valid() && sprites == [] && Jitters(m.objects, jitters)
      modifies this`sprites, this`collisionSprites, this`semiCollisionSprites, this`damageSprites, this`playerStart
      ensures Valid()
      ensures sprites == LevelSpawns(m, jitters)
      ensures playerStart == (if PlayerStart(m.objects).Some? then PlayerStart(m.objects) else old(playerStart))
    {
      AddTileLayers(m, TILE_LAYERS);
      assert sprites == LayersSpawns(m, TILE_LAYERS);
      ghost var tiles := sprites;
      AddTerrainRepeat(m.terrain);
      AddDetails(m.details);
      AddObjects(m.objects, jitters);
      assert sprites == tiles + TerrainRepeat(m.terrain) + AllDetailSpawns(m.details) + AllObjectSpawns(m.objects, jitters);
      AddMovers(m.movers);
    }

    /** The loop over the tile layers, one `AddTiles` pass per layer, in order. */
    method AddTileLayers(m: LevelMap, layers: seq<TileLayer>)
      requires Valid()
      modifies this`sprites, this`collisionSprites, this`semiCollisionSprites, this`damageSprites
      ensures Valid()
      ensures sprites == old(sprites) + LayersSpawns(m, layers)
    {
      ghost var done: seq<Spawn> := [];
      for k := 0 to |layers|
        invariant Valid()
        invariant done == LayersSpawns(m, layers[..k])
        invariant sprites == old(sprites) + done
      {
        LayerStep(m, layers, k);
        ghost var before := sprites;
        AddTiles(layers[k], LayerCells(m, layers[k]));
        done := done + TileSpawns(layers[k], LayerCells(m, layers[k]));
        assert sprites == before + TileSpawns(layers[k], LayerCells(m, layers[k]));
      }
      assert layers[..|layers|] == layers;
    }

    /** Add one sprite to `sprites` and to each other group it names. */
    method Add(s: Spawn)
      requires Valid() && AllSprites in s.groups
      modifies this`sprites, this`collisionSprites, this`semiCollisionSprites, this`damageSprites
      ensures Valid()
      ensures sprites == old(sprites) + [s]
    {
      assert (sprites + [s])[..|sprites|] == sprites;
      sprites := sprites + [s];
      if CollisionSprites in s.groups {
        collisionSprites := collisionSprites + [s];
      }
      if SemiCollisionSprites in s.groups {
        semiCollisionSprites := semiCollisionSprites + [s];
      }
      if DamageSprites in s.groups {
        damageSprites := damageSprites + [s];
      }
    }

    method AddTiles(layer: TileLayer, cells: seq<Cell>)
      requires Valid()
      modifies this`sprites, this`collisionSprites, this`semiCollisionSprites, this`damageSprites
      ensures Valid()
      ensures sprites == old(sprites) + TileSpawns(layer, cells)
    {
      for k := 0 to |cells|
        invariant Valid()
        invariant sprites == old(sprites) + TileSpawns(layer, cells[..k])
      {
        assert cells[..k + 1][..k] == cells[..k];
        Add(Spawn(Tile, CellOrigin(cells[k]), TileDepth(layer), TileGroups(layer)));
      }
      assert cells[..|cells|] == cells;
    }

    method AddTerrainRepeat(cells: seq<Cell>)
      requires Valid()
      modifies this`sprites, this`collisionSprites, this`semiCollisionSprites, this`damageSprites
      ensures Valid()
      ensures sprites == old(sprites) + TerrainRepeat(cells)
    {
      for k := 0 to |cells|
        invariant Valid()
        invariant sprites == old(sprites) + TerrainRepeat(cells[..k])
      {
        assert cells[..k + 1][..k] == cells[..k];
        Add(Spawn(Tile, CellOrigin(cells[k]), Settings.Depth(Settings.Main), {AllSprites, CollisionSprites}));
      }
      assert cells[..|cells|] == cells;
    }

    method AddDetails(objs: seq<MapObject>)
      requires Valid()
      modifies this`sprites, this`collisionSprites, this`semiCollisionSprites, this`damageSprites
      ensures Valid()
      ensures sprites == old(sprites) + AllDetailSpawns(objs)
    {
      for k := 0 to |objs|
        invariant Valid()
        invariant sprites == old(sprites) + AllDetailSpawns(objs[..k])
      {
        assert objs[..k + 1][..k] == objs[..k];
        AddDetail(objs[k]);
      }
      assert objs[..|objs|] == objs;
    }

    /** One background detail, and a light for a candle. */
    method AddDetail(o: MapObject)
      requires Valid()
      modifies this`sprites, this`collisionSprites, this`semiCollisionSprites, this`damageSprites
      ensures Valid()
      ensures sprites == old(sprites) + DetailSpawns(o)
    {
      var z := Settings.Depth(Settings.BgTiles);
      if o.name == "static" {
        Add(Spawn(Still(o.name), Vec(o.x, o.y), z, {AllSprites}));
      } else {
        Add(Spawn(Animated(o.name, Settings.ANIMATION_SPEED as real, false), Vec(o.x, o.y), z, {AllSprites}));
        if o.name == "candle" {
          Add(Spawn(Animated("candle_light", Settings.ANIMATION_SPEED as real, false),
                    Vec(o.x, o.y).Plus(CANDLE_LIGHT_SHIFT), z, {AllSprites}));
        }
      }
    }

    method AddObjects(objs: seq<MapObject>, jitters: seq<real>)
      requires Valid() && Jitters(objs, jitters)
      modifies this`sprites, this`collisionSprites, this`semiCollisionSprites, this`damageSprites, this`playerStart
      ensures Valid()
      ensures sprites == old(sprites) + AllObjectSpawns(objs, jitters)
      ensures playerStart == (if PlayerStart(objs).Some? then PlayerStart(objs) else old(playerStart))
    {
      for k := 0 to |objs|
        invariant Valid()
        invariant Jitters(objs[..k], jitters[..k])
        invariant sprites == old(sprites) + AllObjectSpawns(objs[..k], jitters[..k])
        invariant playerStart == (if PlayerStart(objs[..k]).Some? then PlayerStart(objs[..k]) else old(playerStart))
      {
        ObjectStep(objs, jitters, k);
        AddObject(objs[k], jitters[k]);
      }
      assert objs[..|objs|] == objs && jitters[..|jitters|] == jitters;
    }

    /** One object: remember the player's start, or create its sprite. */
    method AddObject(o: MapObject, jitter: real)
      requires Valid() && -1.0 <= jitter <= 1.0
      modifies this`sprites, this`collisionSprites, this`semiCollisionSprites, this`damageSprites, this`playerStart
      ensures Valid()
      ensures sprites == old(sprites) + ObjectSpawns(o, jitter)
      ensures playerStart == (if o.name == "player" then Some(Vec(o.x, o.y)) else old(playerStart))
    {
      if o.name == "player" {
        playerStart := Some(Vec(o.x, o.y));
      } else if o.name == "barrel" || o.name == "crate" {
        Add(Spawn(Still(o.name), Vec(o.x, o.y), Settings.Depth(Settings.Main), {AllSprites, CollisionSprites}));
      } else {
        Add(Spawn(Animated(o.name, AnimationSpeed(o.name, jitter), o.name == "floor_spike" && o.inverted),
                  Vec(o.x, o.y), ObjectDepth(o.name), ObjectGroups(o.name)));
      }
    }

    method AddMovers(objs: seq<MapObject>)
      requires Valid()
      modifies this`sprites, this`collisionSprites, this`semiCollisionSprites, this`damageSprites
      ensures Valid()
      ensures sprites == old(sprites) + AllMoverSpawns(objs)
    {
      for k := 0 to |objs|
        invariant Valid()
        invariant sprites == old(sprites) + AllMoverSpawns(objs[..k])
      {
        assert objs[..k + 1][..k] == objs[..k];
        var o := objs[k];
        if o.name != "spike" {
          var (axis, start, end) := Anchors(o);
          Add(Spawn(Mover(o.name, axis, start, end, o.speed), start, Settings.Depth(Settings.Main), MoverGroups(o)));
        }
      }
      assert objs[..|objs|] == objs;
    }
  }
}
