/** The world builder: turns a height map into bricks of coloured voxels and places
    them in a `CpuBrickmap`.

    The world is `2^world_depth` voxels wide in x and z, cut into chunks of 16 columns,
    each chunk into `16 / BRICK_SIZE` bricks per axis, and each brick into `BRICK_SIZE`
    voxels per axis (`BRICK_SIZE == 2^brickLog`). Only `16 / BRICK_SIZE` bricks are
    stacked vertically, so the world is 16 voxels tall. A voxel is solid when it lies
    at or below its column's surface, `height * 200`; the surface voxel is grass, the
    ones below it dirt.

    The palette file and its JSON parsing are I/O: the parsed map is a parameter. The
    brickmap tree itself is not part of this model: `CpuBrickmap` records the calls it
    receives and checks placements against its capacity. */
module WorldBuilder {
  import opened Wrappers
  import opened Math

  /** One channel of a colour, a `u8`. */
  newtype Channel = c: int | 0 <= c < 256

  /** A colour, `[u8; 4]`. */
  datatype Rgba = Rgba(r: Channel, g: Channel, b: Channel, a: Channel)

  const GRASS_KEY: string := "minecraft:grass_block"
  const DIRT_KEY: string := "minecraft:dirt"

  /** The fixed colour of `GRASS_KEY`. */
  const GRASS_COLOUR: Rgba := Rgba(62, 204, 18, 255)

  /** The fixed entries `load_palette` writes over whatever the file holds. */
  const PALETTE_OVERRIDES: map<string, Rgba> := map[
    "" := Rgba(200, 200, 200, 127),
    "minecraft:grass" := Rgba(0, 0, 0, 0),
    "minecraft:tall_grass" := Rgba(0, 0, 0, 0),
    "minecraft:grass_block" := Rgba(62, 204, 18, 255),
    "minecraft:water" := Rgba(20, 105, 201, 30),
    "minecraft:cave_air" := Rgba(0, 0, 0, 0),
    "minecraft:lava" := Rgba(255, 123, 0, 255),
    "minecraft:seagrass" := Rgba(62, 204, 18, 255),
    "minecraft:deepslate" := Rgba(77, 77, 77, 255),
    "minecraft:oak_log" := Rgba(112, 62, 8, 255),
    "minecraft:oak_stairs" := Rgba(112, 62, 8, 255)
  ]

  /** `load_palette`: the parsed file with the eleven fixed entries inserted one by one.
      The fixed entries win; every other entry of the file is kept; nothing else appears.
      In particular grass always has its fixed colour, and dirt is present exactly when
      the file has it. */
  method LoadPalette(file: map<string, Rgba>) returns (palette: map<string, Rgba>)
    ensures palette.Keys == file.Keys + PALETTE_OVERRIDES.Keys
    ensures forall k :: k in PALETTE_OVERRIDES ==> palette[k] == PALETTE_OVERRIDES[k]
    ensures forall k :: k in file && k !in PALETTE_OVERRIDES ==> palette[k] == file[k]
    ensures GRASS_KEY in palette && palette[GRASS_KEY] == GRASS_COLOUR
    ensures DIRT_KEY in palette <==> DIRT_KEY in file
    ensures DIRT_KEY in file ==> palette[DIRT_KEY] == file[DIRT_KEY]
  {
    palette := file;
    palette := palette["" := Rgba(200, 200, 200, 127)];
    palette := palette["minecraft:grass" := Rgba(0, 0, 0, 0)];
    palette := palette["minecraft:tall_grass" := Rgba(0, 0, 0, 0)];
    palette := palette["minecraft:grass_block" := Rgba(62, 204, 18, 255)];
    palette := palette["minecraft:water" := Rgba(20, 105, 201, 30)];
    palette := palette["minecraft:cave_air" := Rgba(0, 0, 0, 0)];
    palette := palette["minecraft:lava" := Rgba(255, 123, 0, 255)];
    palette := palette["minecraft:seagrass" := Rgba(62, 204, 18, 255)];
    palette := palette["minecraft:deepslate" := Rgba(77, 77, 77, 255)];
    palette := palette["minecraft:oak_log" := Rgba(112, 62, 8, 255)];
    palette := palette["minecraft:oak_stairs" := Rgba(112, 62, 8, 255)];
    assert palette == file + PALETTE_OVERRIDES;
    assert DIRT_KEY !in PALETTE_OVERRIDES;
  }

  /** Voxels per chunk side. */
  const CHUNK_SIZE: nat := 16

  /** `height_scale`: a height of `h` puts the surface at voxel `h * 200`. */
  const HEIGHT_SCALE: nat := 200

  /** What the voxel fill reads: the height map (`heights[z][x]`), the two colours, and
      `BRICK_SIZE` as a power of two. */
  datatype Terrain = Terrain(heights: seq<seq<nat>>, grass: Rgba, dirt: Rgba, brickLog: nat)

  /** `BRICK_SIZE`. */
  function BrickSize(t: Terrain): nat
  {
    Pow2(t.brickLog)
  }

  /** `chunk_side_length_bricks`, `16 / BRICK_SIZE`, for a brick size that divides the
      chunk size (see `ChunkSideDivides`). */
  function ChunkSide(t: Terrain): nat
    requires t.brickLog <= 4
  {
    Pow2(4 - t.brickLog)
  }

  /** For `BRICK_SIZE == 2^brickLog` up to 16, `16 / BRICK_SIZE` bricks fill a chunk
      side exactly. */
  lemma ChunkSideDivides(t: Terrain)
    requires t.brickLog <= 4
    ensures CHUNK_SIZE / BrickSize(t) == ChunkSide(t)
    ensures ChunkSide(t) * BrickSize(t) == CHUNK_SIZE
  {
    assert Pow2(1) == 2 && Pow2(2) == 4 && Pow2(3) == 8 && Pow2(4) == 16;
  }

  /** The column `(gx, gz)` exists in the height map, which is indexed `[gz][gx]`. */
  predicate ColumnInBounds(heights: seq<seq<nat>>, gx: nat, gz: nat)
  {
    gz < |heights| && gx < |heights[gz]|
  }

  /** A read of the height map by the voxel loop: the column was skipped, its height was
      read, or the index `[gz][gx]` was out of range (a panic). */
  datatype ColumnRead = Skipped | Height(h: nat) | IndexPanic

  /** The column guard and read as the voxel loop writes them: the guard compares `gx`
      with the number of rows and `gz` with the length of the first row, but the read
      that follows indexes row `gz`, column `gx`. */
  function ReadAsWritten(heights: seq<seq<nat>>, gx: nat, gz: nat): (r: ColumnRead)
    ensures r.Height? ==> ColumnInBounds(heights, gx, gz) && r.h == heights[gz][gx]
    ensures r.IndexPanic? ==> !ColumnInBounds(heights, gx, gz)
  {
    if gx >= |heights| || gz >= |heights[0]| then Skipped
    else if ColumnInBounds(heights, gx, gz) then Height(heights[gz][gx])
    else IndexPanic
  }

  /** The guard with the axes the read uses: a column is read exactly when it exists. */
  function Read(heights: seq<seq<nat>>, gx: nat, gz: nat): (r: ColumnRead)
    ensures !r.IndexPanic?
    ensures r.Height? <==> ColumnInBounds(heights, gx, gz)
    ensures r.Height? ==> r.h == heights[gz][gx]
  {
    if ColumnInBounds(heights, gx, gz) then Height(heights[gz][gx]) else Skipped
  }

  /** A height map of one row and two columns: the guard as written lets column
      `(0, 1)` through to an out-of-range read, and skips column `(1, 0)`, which exists. */
  lemma GuardAsWrittenCounterexample()
    ensures ReadAsWritten([[0, 0]], 0, 1) == IndexPanic
    ensures ColumnInBounds([[0, 0]], 1, 0) && ReadAsWritten([[0, 0]], 1, 0) == Skipped
  {
  }

  /** On a square height map the guard as written and the corrected one read the same
      columns. */
  lemma GuardAgreesOnSquareMaps(heights: seq<seq<nat>>, gx: nat, gz: nat)
    requires forall z :: 0 <= z < |heights| ==> |heights[z]| == |heights|
    ensures ReadAsWritten(heights, gx, gz) == Read(heights, gx, gz)
  {
  }

  /** The voxel at global `(gx, gy, gz)`: empty outside the height map and above the
      surface, grass on the surface, dirt below it. */
  function Colour(t: Terrain, gx: nat, gy: nat, gz: nat): (r: Option<Rgba>)
    ensures r.Some? <==> ColumnInBounds(t.heights, gx, gz) && gy <= t.heights[gz][gx] * HEIGHT_SCALE
    ensures r.Some? ==> ColumnInBounds(t.heights, gx, gz)
                        && r.value == if gy == t.heights[gz][gx] * HEIGHT_SCALE then t.grass else t.dirt
  {
    var column := Read(t.heights, gx, gz);
    if !column.Height? then None
    else
      var surface := column.h * HEIGHT_SCALE;
      if gy <= surface then Some(if gy == surface then t.grass else t.dirt) else None
  }

  /** The voxel rule reads columns through the corrected guard. On a height map of one
      row and two columns it therefore fills column `(1, 0)`, which the guard as written
      skips, and leaves column `(0, 1)` empty where the guard as written panics. */
  lemma ColourOffSquareMaps(grass: Rgba, dirt: Rgba, brickLog: nat)
    ensures var t := Terrain([[0, 0]], grass, dirt, brickLog);
            && Colour(t, 1, 0, 0) == Some(grass) && ReadAsWritten(t.heights, 1, 0) == Skipped
            && Colour(t, 0, 0, 1) == None && ReadAsWritten(t.heights, 0, 1) == IndexPanic
  {
  }

  /** The world is 16 voxels tall, so a column of height at least one is dirt all the
      way up, and grass can only show on columns of height zero, at the bottom layer. */
  lemma ColumnProfile(t: Terrain, gx: nat, gy: nat, gz: nat)
    requires ColumnInBounds(t.heights, gx, gz) && gy < CHUNK_SIZE
    ensures t.heights[gz][gx] >= 1 ==> Colour(t, gx, gy, gz) == Some(t.dirt)
    ensures t.heights[gz][gx] == 0 ==> Colour(t, gx, gy, gz) == if gy == 0 then Some(t.grass) else None
  {
  }

  /** A brick of `BRICK_SIZE`³ voxels; absent positions are empty. */
  datatype Brick = Brick(voxels: map<UVec3, Rgba>)

  /** `Brick::empty()`. */
  const EMPTY_BRICK: Brick := Brick(map[])

  predicate InBrick(p: UVec3, size: nat)
  {
    p.x < size && p.y < size && p.z < size
  }

  /** `brick.write(pos, color)`, defined only inside the brick. */
  function Write(b: Brick, p: UVec3, c: Rgba, size: nat): Brick
    requires InBrick(p, size)
  {
    Brick(b.voxels[p := c])
  }

  function Lookup(b: Brick, p: UVec3): Option<Rgba>
  {
    if p in b.voxels then Some(b.voxels[p]) else None
  }

  /** The voxel at local position `p` of the brick whose first voxel is at `o`. */
  function LocalColour(t: Terrain, o: UVec3, p: UVec3): Option<Rgba>
  {
    Colour(t, o.x + p.x, o.y + p.y, o.z + p.z)
  }

  /** A voxel that is written replaces what was there; an empty one leaves it. */
  function Overlay(c: Option<Rgba>, previous: Option<Rgba>): Option<Rgba>
  {
    if c.Some? then c else previous
  }

  /** One step of the innermost loop: local voxel `(x, y, z)`. */
  function FillVoxel(t: Terrain, o: UVec3, b: Brick, x: nat, y: nat, z: nat): Brick
    requires InBrick(UVec3(x, y, z), BrickSize(t))
  {
    match LocalColour(t, o, UVec3(x, y, z))
    case None => b
    case Some(c) => Write(b, UVec3(x, y, z), c, BrickSize(t))
  }

  /** The `z` loop run for its first `n` rounds. */
  function FillZ(t: Terrain, o: UVec3, b: Brick, x: nat, y: nat, n: nat): Brick
    requires x < BrickSize(t) && y < BrickSize(t) && n <= BrickSize(t)
  {
    if n == 0 then b else FillVoxel(t, o, FillZ(t, o, b, x, y, n - 1), x, y, n - 1)
  }

  /** The `y` loop run for its first `n` rounds. */
  function FillY(t: Terrain, o: UVec3, b: Brick, x: nat, n: nat): Brick
    requires x < BrickSize(t) && n <= BrickSize(t)
  {
    if n == 0 then b else FillZ(t, o, FillY(t, o, b, x, n - 1), x, n - 1, BrickSize(t))
  }

  /** The `x` loop run for its first `n` rounds. */
  function FillX(t: Terrain, o: UVec3, b: Brick, n: nat): Brick
    requires n <= BrickSize(t)
  {
    if n == 0 then b else FillY(t, o, FillX(t, o, b, n - 1), n - 1, BrickSize(t))
  }

  /** The brick the three voxel loops build for the brick whose first voxel is at `o`. */
  function BrickContent(t: Terrain, o: UVec3): Brick
  {
    FillX(t, o, EMPTY_BRICK, BrickSize(t))
  }

  lemma {:induction false} FillZLookup(t: Terrain, o: UVec3, b: Brick, x: nat, y: nat, n: nat, p: UVec3)
    requires x < BrickSize(t) && y < BrickSize(t) && n <= BrickSize(t)
    ensures Lookup(FillZ(t, o, b, x, y, n), p)
         == if p.x == x && p.y == y && p.z < n then Overlay(LocalColour(t, o, p), Lookup(b, p)) else Lookup(b, p)
  {
    if n > 0 {
      FillZLookup(t, o, b, x, y, n - 1, p);
    }
  }

  lemma {:induction false} FillYLookup(t: Terrain, o: UVec3, b: Brick, x: nat, n: nat, p: UVec3)
    requires x < BrickSize(t) && n <= BrickSize(t)
    ensures Lookup(FillY(t, o, b, x, n), p)
         == if p.x == x && p.y < n && p.z < BrickSize(t) then Overlay(LocalColour(t, o, p), Lookup(b, p)) else Lookup(b, p)
  {
    if n > 0 {
      FillYLookup(t, o, b, x, n - 1, p);
      FillZLookup(t, o, FillY(t, o, b, x, n - 1), x, n - 1, BrickSize(t), p);
    }
  }

  lemma {:induction false} FillXLookup(t: Terrain, o: UVec3, b: Brick, n: nat, p: UVec3)
    requires n <= BrickSize(t)
    ensures Lookup(FillX(t, o, b, n), p)
         == if p.x < n && p.y < BrickSize(t) && p.z < BrickSize(t) then Overlay(LocalColour(t, o, p), Lookup(b, p)) else Lookup(b, p)
  {
    if n > 0 {
      FillXLookup(t, o, b, n - 1, p);
      FillYLookup(t, o, FillX(t, o, b, n - 1), n - 1, BrickSize(t), p);
    }
  }

  /** What a brick holds: inside the brick, exactly the voxel of the world at the same
      place (solid at or below the surface, grass on it, dirt below, empty outside the
      height map); nothing outside the brick. */
  lemma BrickContentLookup(t: Terrain, o: UVec3, p: UVec3)
    ensures Lookup(BrickContent(t, o), p) == if InBrick(p, BrickSize(t)) then LocalColour(t, o, p) else None
  {
    FillXLookup(t, o, EMPTY_BRICK, BrickSize(t), p);
  }

  /** The `z` loop for local column `(x, y)` of the brick whose first voxel is at `o`:
      skip columns outside the height map, write the voxels at or below the surface. */
  method FillRow(t: Terrain, o: UVec3, start: Brick, x: nat, y: nat) returns (brick: Brick)
    requires x < BrickSize(t) && y < BrickSize(t)
    ensures brick == FillZ(t, o, start, x, y, BrickSize(t))
  {
    var size := BrickSize(t);
    brick := start;
    var z := 0;
    while z < size
      invariant z <= size && brick == FillZ(t, o, start, x, y, z)
    {
      ghost var previous := brick;
      var gx, gy, gz := o.x + x, o.y + y, o.z + z;
      if !(gz < |t.heights| && gx < |t.heights[gz]|) {
        assert brick == FillVoxel(t, o, previous, x, y, z);
        z := z + 1;
        continue;
      }
      var surface := t.heights[gz][gx] * HEIGHT_SCALE;
      if gy <= surface {
        var colour := if gy == surface then t.grass else t.dirt;
        brick := Write(brick, UVec3(x, y, z), colour, size);
      }
      assert brick == FillVoxel(t, o, previous, x, y, z);
      z := z + 1;
    }
  }

  /** The three voxel loops of `setup_voxels` for the brick whose first voxel is at `o`. */
  method FillBrick(t: Terrain, o: UVec3) returns (brick: Brick)
    ensures brick == BrickContent(t, o)
  {
    var size := BrickSize(t);
    brick := EMPTY_BRICK;
    var x := 0;
    while x < size
      invariant x <= size && brick == FillX(t, o, EMPTY_BRICK, x)
    {
      var y := 0;
      while y < size
        invariant y <= size && brick == FillY(t, o, FillX(t, o, EMPTY_BRICK, x), x, y)
      {
        brick := FillRow(t, o, brick, x, y);
        y := y + 1;
      }
      x := x + 1;
    }
  }

  datatype PlacementError = OutOfBounds

  /** A call the builder makes on the brickmap. */
  datatype BrickmapCall = Placed(brick: Brick, pos: UVec3) | Mipmapped

  /** The brickmap tree, seen through the calls it receives: placing a brick succeeds
      exactly when every coordinate of its brick-grid position fits in `depth` bits. */
  class CpuBrickmap {
    const depth: nat
    var calls: seq<BrickmapCall>

    /** `CpuBrickmap::new(depth)`. */
    constructor (depth: nat)
      ensures this.depth == depth && calls == []
    {
      this.depth := depth;
      calls := [];
    }

    predicate InCapacity(pos: UVec3)
    {
      pos.x < Pow2(depth) && pos.y < Pow2(depth) && pos.z < Pow2(depth)
    }

    /** `place_brick`: `OutOfBounds`, and nothing recorded, outside the capacity. */
    method PlaceBrick(brick: Brick, pos: UVec3) returns (r: Result<(), PlacementError>)
      modifies this
      ensures r.Ok? <==> InCapacity(pos)
      ensures calls == if r.Ok? then old(calls) + [Placed(brick, pos)] else old(calls)
    {
      if InCapacity(pos) {
        calls := calls + [Placed(brick, pos)];
        r := Ok(());
      } else {
        r := Err(OutOfBounds);
      }
    }

    /** `recreate_mipmaps`. */
    method RecreateMipmaps()
      modifies this
      ensures calls == old(calls) + [Mipmapped]
    {
      calls := calls + [Mipmapped];
    }
  }

  /** `brick_pos`: the brick-grid position of brick `(brickX, brickY, brickZ)` of chunk
      `(chunkX, chunkZ)`, for chunks `side` bricks wide. */
  function BrickPosition(side: nat, chunkX: nat, chunkZ: nat, brickY: nat, brickX: nat, brickZ: nat): UVec3
  {
    UVec3(chunkX * side + brickX, brickY, chunkZ * side + brickZ)
  }

  /** The world coordinates of the first voxel of brick `(brickX, brickY, brickZ)` of
      chunk `(chunkX, chunkZ)`, for bricks `size` voxels wide. */
  function BrickOrigin(size: nat, chunkX: nat, chunkZ: nat, brickY: nat, brickX: nat, brickZ: nat): UVec3
  {
    UVec3(chunkX * CHUNK_SIZE + brickX * size, brickY * size, chunkZ * CHUNK_SIZE + brickZ * size)
  }

  /** Brick-grid position `pos` scaled to the world coordinates of its first voxel. */
  function Scaled(pos: UVec3, size: nat): UVec3
  {
    UVec3(pos.x * size, pos.y * size, pos.z * size)
  }

  /** The `place_brick` call for the brick at brick-grid position `pos`: the brick filled
      from the world region that position stands for. */
  function PlaceCall(t: Terrain, pos: UVec3): BrickmapCall
  {
    Placed(BrickContent(t, Scaled(pos, BrickSize(t))), pos)
  }

  /** The calls of the `brick_z` loop after `n` rounds. */
  function BzRun(t: Terrain, chunkX: nat, chunkZ: nat, brickY: nat, brickX: nat, n: nat): seq<BrickmapCall>
    requires t.brickLog <= 4
  {
    if n == 0 then []
    else BzRun(t, chunkX, chunkZ, brickY, brickX, n - 1) + [PlaceCall(t, BrickPosition(ChunkSide(t), chunkX, chunkZ, brickY, brickX, n - 1))]
  }

  /** The calls of the `brick_x` loop after `n` rounds. */
  function BxRun(t: Terrain, chunkX: nat, chunkZ: nat, brickY: nat, n: nat): seq<BrickmapCall>
    requires t.brickLog <= 4
  {
    if n == 0 then [] else BxRun(t, chunkX, chunkZ, brickY, n - 1) + BzRun(t, chunkX, chunkZ, brickY, n - 1, ChunkSide(t))
  }

  /** The calls of the `brick_y` loop after `n` rounds. */
  function ByRun(t: Terrain, chunkX: nat, chunkZ: nat, n: nat): seq<BrickmapCall>
    requires t.brickLog <= 4
  {
    if n == 0 then [] else ByRun(t, chunkX, chunkZ, n - 1) + BxRun(t, chunkX, chunkZ, n - 1, ChunkSide(t))
  }

  /** The calls of the `chunk_z` loop after `n` rounds. */
  function CzRun(t: Terrain, chunkX: nat, n: nat): seq<BrickmapCall>
    requires t.brickLog <= 4
  {
    if n == 0 then [] else CzRun(t, chunkX, n - 1) + ByRun(t, chunkX, n - 1, ChunkSide(t))
  }

  /** The calls of the `chunk_x` loop after `n` rounds, with `chunks` chunks per side. */
  function CxRun(t: Terrain, n: nat, chunks: nat): seq<BrickmapCall>
    requires t.brickLog <= 4
  {
    if n == 0 then [] else CxRun(t, n - 1, chunks) + CzRun(t, n - 1, chunks)
  }

  /** Every placement `setup_voxels` makes, in loop order. */
  function Placements(t: Terrain, chunks: nat): seq<BrickmapCall>
    requires t.brickLog <= 4
  {
    CxRun(t, chunks, chunks)
  }

  /** Every call places a brick, and that brick is the voxel content of the world region
      its position stands for. */
  ghost predicate Sound(t: Terrain, calls: seq<BrickmapCall>)
  {
    forall i :: 0 <= i < |calls| ==> calls[i].Placed? && calls[i] == PlaceCall(t, calls[i].pos)
  }

  lemma SoundConcat(t: Terrain, a: seq<BrickmapCall>, b: seq<BrickmapCall>)
    requires Sound(t, a) && Sound(t, b)
    ensures Sound(t, a + b)
  {
    forall i | 0 <= i < |a + b|
      ensures (a + b)[i].Placed? && (a + b)[i] == PlaceCall(t, (a + b)[i].pos)
    {
      if i >= |a| {
        assert (a + b)[i] == b[i - |a|];
      }
    }
  }

  lemma {:induction false} BzRunSound(t: Terrain, chunkX: nat, chunkZ: nat, brickY: nat, brickX: nat, n: nat)
    requires t.brickLog <= 4
    ensures Sound(t, BzRun(t, chunkX, chunkZ, brickY, brickX, n))
  {
    if n > 0 {
      var call := PlaceCall(t, BrickPosition(ChunkSide(t), chunkX, chunkZ, brickY, brickX, n - 1));
      BzRunSound(t, chunkX, chunkZ, brickY, brickX, n - 1);
      assert Sound(t, [call]);
      SoundConcat(t, BzRun(t, chunkX, chunkZ, brickY, brickX, n - 1), [call]);
    }
  }

  lemma {:induction false} BxRunSound(t: Terrain, chunkX: nat, chunkZ: nat, brickY: nat, n: nat)
    requires t.brickLog <= 4
    ensures Sound(t, BxRun(t, chunkX, chunkZ, brickY, n))
  {
    if n > 0 {
      BxRunSound(t, chunkX, chunkZ, brickY, n - 1);
      BzRunSound(t, chunkX, chunkZ, brickY, n - 1, ChunkSide(t));
      SoundConcat(t, BxRun(t, chunkX, chunkZ, brickY, n - 1), BzRun(t, chunkX, chunkZ, brickY, n - 1, ChunkSide(t)));
    }
  }

  lemma {:induction false} ByRunSound(t: Terrain, chunkX: nat, chunkZ: nat, n: nat)
    requires t.brickLog <= 4
    ensures Sound(t, ByRun(t, chunkX, chunkZ, n))
  {
    if n > 0 {
      ByRunSound(t, chunkX, chunkZ, n - 1);
      BxRunSound(t, chunkX, chunkZ, n - 1, ChunkSide(t));
      SoundConcat(t, ByRun(t, chunkX, chunkZ, n - 1), BxRun(t, chunkX, chunkZ, n - 1, ChunkSide(t)));
    }
  }

  lemma {:induction false} CzRunSound(t: Terrain, chunkX: nat, n: nat)
    requires t.brickLog <= 4
    ensures Sound(t, CzRun(t, chunkX, n))
  {
    if n > 0 {
      CzRunSound(t, chunkX, n - 1);
      ByRunSound(t, chunkX, n - 1, ChunkSide(t));
      SoundConcat(t, CzRun(t, chunkX, n - 1), ByRun(t, chunkX, n - 1, ChunkSide(t)));
    }
  }

  lemma {:induction false} CxRunSound(t: Terrain, n: nat, chunks: nat)
    requires t.brickLog <= 4
    ensures Sound(t, CxRun(t, n, chunks))
  {
    if n > 0 {
      CxRunSound(t, n - 1, chunks);
      CzRunSound(t, n - 1, chunks);
      SoundConcat(t, CxRun(t, n - 1, chunks), CzRun(t, n - 1, chunks));
    }
  }

  /** At local position `p`, the brick of a placement holds the world's voxel at
      `pos * BRICK_SIZE + p`, where `pos` is the position it is placed at. */
  ghost predicate ShowsWorld(t: Terrain, call: BrickmapCall, p: UVec3)
  {
    var size := BrickSize(t);
    && call.Placed?
    && Lookup(call.brick, p)
       == if InBrick(p, size) then Colour(t, call.pos.x * size + p.x, call.pos.y * size + p.y, call.pos.z * size + p.z) else None
  }

  /** Each placement puts, at local position `p` of its brick, the world's voxel at
      `pos * BRICK_SIZE + p`, where `pos` is the position it is placed at. */
  lemma PlacedBrickContent(t: Terrain, chunks: nat, i: nat, p: UVec3)
    requires t.brickLog <= 4 && i < |Placements(t, chunks)|
    ensures Placements(t, chunks)[i].Placed?
    ensures ShowsWorld(t, Placements(t, chunks)[i], p)
  {
    CxRunSound(t, chunks, chunks);
    var call := Placements(t, chunks)[i];
    BrickContentLookup(t, Scaled(call.pos, BrickSize(t)), p);
  }

  /** The loop indices of one brick: chunk `(chunkX, chunkZ)`, then brick `(brickX, brickY,
      brickZ)` inside it. */
  datatype BrickIndex = BrickIndex(chunkX: nat, chunkZ: nat, brickY: nat, brickX: nat, brickZ: nat)

  /** The indices the loops of `setup_voxels` run through, with `chunks` chunks of `side`
      bricks per side. */
  predicate LoopIndex(side: nat, chunks: nat, i: BrickIndex)
  {
    i.chunkX < chunks && i.chunkZ < chunks && i.brickY < side && i.brickX < side && i.brickZ < side
  }

  function PositionOf(side: nat, i: BrickIndex): UVec3
  {
    BrickPosition(side, i.chunkX, i.chunkZ, i.brickY, i.brickX, i.brickZ)
  }

  /** The loop indices that reach brick-grid position `pos`: quotient and remainder of
      each horizontal coordinate by the chunk side. */
  function IndexOf(side: nat, pos: UVec3): (i: BrickIndex)
    requires side >= 1
    ensures PositionOf(side, i) == pos
  {
    DigitsUnique(pos.x / side, pos.x % side, side);
    DigitsUnique(pos.z / side, pos.z % side, side);
    BrickIndex(pos.x / side, pos.z / side, pos.y, pos.x % side, pos.z % side)
  }

  /** Distinct loop indices place distinct positions, and every position the loops place
      lies in the box of `chunks * side` bricks per horizontal side and `side` bricks high. */
  lemma PositionsDistinct(side: nat, chunks: nat, i: BrickIndex, j: BrickIndex)
    requires LoopIndex(side, chunks, i) && LoopIndex(side, chunks, j)
    ensures PositionOf(side, i) == PositionOf(side, j) <==> i == j
    ensures var pos := PositionOf(side, i); pos.x < chunks * side && pos.y < side && pos.z < chunks * side
  {
    DigitsUnique(i.chunkX, i.brickX, side);
    DigitsUnique(i.chunkZ, i.brickZ, side);
    DigitsUnique(j.chunkX, j.brickX, side);
    DigitsUnique(j.chunkZ, j.brickZ, side);
    SlotBelow(i.chunkX, i.brickX, side, chunks);
    SlotBelow(i.chunkZ, i.brickZ, side, chunks);
  }

  /** Every position in that box is placed by the loop indices `IndexOf` gives. */
  lemma PositionsCovered(side: nat, chunks: nat, pos: UVec3)
    requires side >= 1 && pos.x < chunks * side && pos.y < side && pos.z < chunks * side
    ensures LoopIndex(side, chunks, IndexOf(side, pos)) && PositionOf(side, IndexOf(side, pos)) == pos
  {
    QuotientBelow(pos.x, side, chunks);
    QuotientBelow(pos.z, side, chunks);
  }

  /** The calls made by one brick-row (`brick_z`) loop, one layer (`brick_x`) loop, one
      chunk (`brick_y`) loop and one chunk-column (`chunk_z`) loop. */
  function RowCalls(t: Terrain): nat
    requires t.brickLog <= 4
  {
    ChunkSide(t)
  }

  function LayerCalls(t: Terrain): nat
    requires t.brickLog <= 4
  {
    ChunkSide(t) * RowCalls(t)
  }

  function ChunkCalls(t: Terrain): nat
    requires t.brickLog <= 4
  {
    ChunkSide(t) * LayerCalls(t)
  }

  function ColumnCalls(t: Terrain, chunks: nat): nat
    requires t.brickLog <= 4
  {
    chunks * ChunkCalls(t)
  }

  /** A sequence built block by block, `run(m + 1) == run(m) + block(m)`, from blocks of
      one length `len`: after `n` blocks it has `n * len` elements, and element `r` of
      block `i` sits at `Mix(i, len, r)`. */
  lemma {:induction false} BlocksAt<T>(run: nat -> seq<T>, block: nat -> seq<T>, len: nat, n: nat, i: nat, r: nat)
    requires run(0) == []
    requires forall m: nat :: run(m + 1) == run(m) + block(m)
    requires forall m: nat :: |block(m)| == len
    ensures |run(n)| == n * len
    ensures i < n && r < len ==> Mix(i, len, r) < |run(n)| && run(n)[Mix(i, len, r)] == block(i)[r]
  {
    if n > 0 {
      BlocksAt(run, block, len, n - 1, i, r);
      assert run(n) == run(n - 1) + block(n - 1);
      MulLe(n - 1, n, len);
      if i < n && r < len {
        MixBelow(i, len, r, n);
        if i < n - 1 {
          MixBelow(i, len, r, n - 1);
        }
      }
    }
  }

  lemma {:induction false} BzRunAt(t: Terrain, chunkX: nat, chunkZ: nat, brickY: nat, brickX: nat, n: nat, j: nat)
    requires t.brickLog <= 4
    ensures |BzRun(t, chunkX, chunkZ, brickY, brickX, n)| == n
    ensures j < n ==> BzRun(t, chunkX, chunkZ, brickY, brickX, n)[j]
                      == PlaceCall(t, BrickPosition(ChunkSide(t), chunkX, chunkZ, brickY, brickX, j))
  {
    if n > 0 {
      BzRunAt(t, chunkX, chunkZ, brickY, brickX, n - 1, j);
    }
  }

  lemma BxRunAt(t: Terrain, chunkX: nat, chunkZ: nat, brickY: nat, n: nat, brickX: nat, brickZ: nat)
    requires t.brickLog <= 4
    ensures |BxRun(t, chunkX, chunkZ, brickY, n)| == n * RowCalls(t)
    ensures brickX < n && brickZ < ChunkSide(t) ==>
              var k := Mix(brickX, RowCalls(t), brickZ);
              && k < |BxRun(t, chunkX, chunkZ, brickY, n)|
              && BxRun(t, chunkX, chunkZ, brickY, n)[k] == PlaceCall(t, BrickPosition(ChunkSide(t), chunkX, chunkZ, brickY, brickX, brickZ))
  {
    var run := m => BxRun(t, chunkX, chunkZ, brickY, m);
    var block := m => BzRun(t, chunkX, chunkZ, brickY, m, ChunkSide(t));
    forall m: nat ensures |block(m)| == RowCalls(t) {
      BzRunAt(t, chunkX, chunkZ, brickY, m, ChunkSide(t), 0);
    }
    BlocksAt(run, block, RowCalls(t), n, brickX, brickZ);
    if brickX < n && brickZ < ChunkSide(t) {
      BzRunAt(t, chunkX, chunkZ, brickY, brickX, ChunkSide(t), brickZ);
    }
  }

  lemma ByRunAt(t: Terrain, chunkX: nat, chunkZ: nat, n: nat, brickY: nat, brickX: nat, brickZ: nat)
    requires t.brickLog <= 4
    ensures |ByRun(t, chunkX, chunkZ, n)| == n * LayerCalls(t)
    ensures brickY < n && brickX < ChunkSide(t) && brickZ < ChunkSide(t) ==>
              var k := Mix(brickY, LayerCalls(t), Mix(brickX, RowCalls(t), brickZ));
              && k < |ByRun(t, chunkX, chunkZ, n)|
              && ByRun(t, chunkX, chunkZ, n)[k] == PlaceCall(t, BrickPosition(ChunkSide(t), chunkX, chunkZ, brickY, brickX, brickZ))
  {
    var side := ChunkSide(t);
    var run := m => ByRun(t, chunkX, chunkZ, m);
    var block := m => BxRun(t, chunkX, chunkZ, m, side);
    forall m: nat ensures |block(m)| == LayerCalls(t) {
      BxRunAt(t, chunkX, chunkZ, m, side, 0, 0);
    }
    var r := Mix(brickX, RowCalls(t), brickZ);
    BlocksAt(run, block, LayerCalls(t), n, brickY, r);
    if brickY < n && brickX < side && brickZ < side {
      MixBelow(brickX, RowCalls(t), brickZ, side);
      BxRunAt(t, chunkX, chunkZ, brickY, side, brickX, brickZ);
    }
  }

  lemma CzRunAt(t: Terrain, chunkX: nat, n: nat, chunkZ: nat, brickY: nat, brickX: nat, brickZ: nat)
    requires t.brickLog <= 4
    ensures |CzRun(t, chunkX, n)| == n * ChunkCalls(t)
    ensures chunkZ < n && brickY < ChunkSide(t) && brickX < ChunkSide(t) && brickZ < ChunkSide(t) ==>
              var k := Mix(chunkZ, ChunkCalls(t), Mix(brickY, LayerCalls(t), Mix(brickX, RowCalls(t), brickZ)));
              && k < |CzRun(t, chunkX, n)|
              && CzRun(t, chunkX, n)[k] == PlaceCall(t, BrickPosition(ChunkSide(t), chunkX, chunkZ, brickY, brickX, brickZ))
  {
    var side := ChunkSide(t);
    var run := m => CzRun(t, chunkX, m);
    var block := m => ByRun(t, chunkX, m, side);
    forall m: nat ensures |block(m)| == ChunkCalls(t) {
      ByRunAt(t, chunkX, m, side, 0, 0, 0);
    }
    var r2 := Mix(brickX, RowCalls(t), brickZ);
    var r := Mix(brickY, LayerCalls(t), r2);
    BlocksAt(run, block, ChunkCalls(t), n, chunkZ, r);
    if chunkZ < n && brickY < side && brickX < side && brickZ < side {
      MixBelow(brickX, RowCalls(t), brickZ, side);
      MixBelow(brickY, LayerCalls(t), r2, side);
      ByRunAt(t, chunkX, chunkZ, side, brickY, brickX, brickZ);
    }
  }

  /** Where the call of loop indices `i` sits in the call sequence: the loops nest
      `chunk_x`, `chunk_z`, `brick_y`, `brick_x`, `brick_z`, outermost first. */
  function Offset(t: Terrain, chunks: nat, i: BrickIndex): nat
    requires t.brickLog <= 4
  {
    Mix(i.chunkX, ColumnCalls(t, chunks), Mix(i.chunkZ, ChunkCalls(t), Mix(i.brickY, LayerCalls(t), Mix(i.brickX, RowCalls(t), i.brickZ))))
  }

  lemma CxRunAt(t: Terrain, n: nat, chunks: nat, i: BrickIndex)
    requires t.brickLog <= 4
    ensures |CxRun(t, n, chunks)| == n * ColumnCalls(t, chunks)
    ensures i.chunkX < n && LoopIndex(ChunkSide(t), chunks, i) ==>
              && Offset(t, chunks, i) < |CxRun(t, n, chunks)|
              && CxRun(t, n, chunks)[Offset(t, chunks, i)] == PlaceCall(t, PositionOf(ChunkSide(t), i))
  {
    var side := ChunkSide(t);
    var run := m => CxRun(t, m, chunks);
    var block := m => CzRun(t, m, chunks);
    forall m: nat ensures |block(m)| == ColumnCalls(t, chunks) {
      CzRunAt(t, m, chunks, 0, 0, 0, 0);
    }
    var r2 := Mix(i.brickX, RowCalls(t), i.brickZ);
    var r3 := Mix(i.brickY, LayerCalls(t), r2);
    var r := Mix(i.chunkZ, ChunkCalls(t), r3);
    BlocksAt(run, block, ColumnCalls(t, chunks), n, i.chunkX, r);
    if i.chunkX < n && LoopIndex(side, chunks, i) {
      MixBelow(i.brickX, RowCalls(t), i.brickZ, side);
      MixBelow(i.brickY, LayerCalls(t), r2, side);
      MixBelow(i.chunkZ, ChunkCalls(t), r3, chunks);
      CzRunAt(t, i.chunkX, chunks, i.chunkZ, i.brickY, i.brickX, i.brickZ);
    }
  }

  /** The digits of `k` in the mixed radix `(chunks, chunks, side, side, side)` with place
      values `column`, `chunk`, `layer` and `row`. */
  function Digits(k: nat, chunks: nat, side: nat, row: nat, layer: nat, chunk: nat, column: nat): (i: BrickIndex)
    requires k < chunks * column && column == chunks * chunk && chunk == side * layer && layer == side * row && row == side
    ensures LoopIndex(side, chunks, i)
    ensures Mix(i.chunkX, column, Mix(i.chunkZ, chunk, Mix(i.brickY, layer, Mix(i.brickX, row, i.brickZ)))) == k
  {
    Split(k, column, chunks);
    var r4 := k % column;
    Split(r4, chunk, chunks);
    var r3 := r4 % chunk;
    Split(r3, layer, side);
    var r2 := r3 % layer;
    Split(r2, row, side);
    BrickIndex(k / column, r4 / chunk, r3 / layer, r2 / row, r2 % row)
  }

  /** The loop indices whose call sits at position `k` of the call sequence. */
  function IndexAt(t: Terrain, chunks: nat, k: nat): (i: BrickIndex)
    requires t.brickLog <= 4 && k < chunks * ColumnCalls(t, chunks)
    ensures LoopIndex(ChunkSide(t), chunks, i) && Offset(t, chunks, i) == k
  {
    Digits(k, chunks, ChunkSide(t), RowCalls(t), LayerCalls(t), ChunkCalls(t), ColumnCalls(t, chunks))
  }

  /** The calls `setup_voxels` makes, one per loop index: there are `chunks² · side³` of
      them, and the call of indices `i` places the brick at `PositionOf(side, i)`. */
  lemma PlacementsAt(t: Terrain, chunks: nat, i: BrickIndex)
    requires t.brickLog <= 4
    ensures |Placements(t, chunks)| == chunks * ColumnCalls(t, chunks)
    ensures LoopIndex(ChunkSide(t), chunks, i) ==>
              && Offset(t, chunks, i) < |Placements(t, chunks)|
              && Placements(t, chunks)[Offset(t, chunks, i)] == PlaceCall(t, PositionOf(ChunkSide(t), i))
  {
    CxRunAt(t, chunks, chunks, i);
  }

  /** Each brick is placed exactly once: two calls of the sequence place the same
      position only if they are the same call, and every call places a position of the
      box of `chunks * side` bricks per horizontal side and `side` bricks high. */
  lemma PlacedOnce(t: Terrain, chunks: nat, k: nat, l: nat)
    requires t.brickLog <= 4 && k < |Placements(t, chunks)| && l < |Placements(t, chunks)|
    ensures Placements(t, chunks)[k].Placed? && Placements(t, chunks)[l].Placed?
    ensures Placements(t, chunks)[k].pos == Placements(t, chunks)[l].pos <==> k == l
    ensures var pos := Placements(t, chunks)[k].pos;
            pos.x < chunks * ChunkSide(t) && pos.y < ChunkSide(t) && pos.z < chunks * ChunkSide(t)
  {
    PlacementsAt(t, chunks, BrickIndex(0, 0, 0, 0, 0));
    var i, j := IndexAt(t, chunks, k), IndexAt(t, chunks, l);
    PlacementsAt(t, chunks, i);
    PlacementsAt(t, chunks, j);
    PositionsDistinct(ChunkSide(t), chunks, i, j);
  }

  /** Every position of that box is placed, by the call of the loop indices that reach it. */
  lemma EveryPositionPlaced(t: Terrain, chunks: nat, pos: UVec3) returns (k: nat)
    requires t.brickLog <= 4
    requires pos.x < chunks * ChunkSide(t) && pos.y < ChunkSide(t) && pos.z < chunks * ChunkSide(t)
    ensures k < |Placements(t, chunks)| && Placements(t, chunks)[k] == PlaceCall(t, pos)
  {
    var side := ChunkSide(t);
    var i := IndexOf(side, pos);
    PositionsCovered(side, chunks, pos);
    PlacementsAt(t, chunks, i);
    k := Offset(t, chunks, i);
  }

  /** With `2^world_depth / 16` chunks per side, the placed positions fill the brickmap's
      capacity horizontally, `2^(world_depth - log2 BRICK_SIZE)` bricks per side, up to
      `16 / BRICK_SIZE` bricks high: every such position is placed. */
  lemma BrickmapFilled(t: Terrain, worldDepth: nat, pos: UVec3) returns (k: nat)
    requires t.brickLog <= 4 && 4 <= worldDepth
    requires pos.x < Pow2(worldDepth - t.brickLog) && pos.y < ChunkSide(t) && pos.z < Pow2(worldDepth - t.brickLog)
    ensures k < |Placements(t, Pow2(worldDepth) / CHUNK_SIZE)|
    ensures Placements(t, Pow2(worldDepth) / CHUNK_SIZE)[k] == PlaceCall(t, pos)
  {
    SetupGeometry(worldDepth, t.brickLog);
    k := EveryPositionPlaced(t, Pow2(worldDepth) / CHUNK_SIZE, pos);
  }

  /** The world coordinate of voxel `local` of brick `brick` of chunk `chunk` on one axis,
      `chunk * 16 + brick * BRICK_SIZE + local`, determines all three: each world voxel of
      the covered range is visited by exactly one choice of chunk, brick and local index. */
  lemma VoxelCoordinateUnique(chunk: nat, brick: nat, local: nat, side: nat, size: nat)
    requires side * size == CHUNK_SIZE && brick < side && local < size
    ensures var g := chunk * CHUNK_SIZE + brick * size + local;
            && g / CHUNK_SIZE == chunk
            && (g % CHUNK_SIZE) / size == brick
            && g % size == local
  {
    OriginIsScaled(chunk, brick, side, size);
    var b := chunk * side + brick;
    DigitsUnique(b, local, size);
    DigitsUnique(brick, local, size);
    MulLe(brick + 1, side, size);
    DigitsUnique(chunk, brick * size + local, CHUNK_SIZE);
  }

  /** The loop bounds of `setup_voxels`: `2^world_depth / 16` chunks per side, each
      `16 / BRICK_SIZE` bricks wide, make exactly `2^(world_depth - log2 BRICK_SIZE)`
      bricks per side, the capacity of the brickmap it creates; worlds narrower than a
      chunk have no chunks. */
  lemma SetupGeometry(worldDepth: nat, brickLog: nat)
    requires brickLog <= 4 && brickLog <= worldDepth
    ensures var chunks, c := Pow2(worldDepth) / CHUNK_SIZE, Pow2(4 - brickLog);
            && (worldDepth >= 4 ==> chunks * c == Pow2(worldDepth - brickLog) && c <= Pow2(worldDepth - brickLog))
            && (worldDepth < 4 ==> chunks == 0)
  {
    var c := Pow2(4 - brickLog);
    assert Pow2(4) == 16;
    if worldDepth >= 4 {
      var k := Pow2(worldDepth - 4);
      Pow2Add(worldDepth - 4, 4);
      assert Pow2(worldDepth) == k * 16;
      assert Pow2(worldDepth) / CHUNK_SIZE == k;
      Pow2Add(worldDepth - 4, 4 - brickLog);
      assert Pow2(worldDepth - brickLog) == k * c;
      MulLe(1, k, c);
    } else {
      Pow2Strict(worldDepth, 4);
    }
  }

  /** `chunk * side + brick` stays below `chunks * side` for `chunk < chunks`, `brick < side`. */
  lemma SlotBelow(chunk: nat, brick: nat, side: nat, chunks: nat)
    requires chunk < chunks && brick < side
    ensures chunk * side + brick < chunks * side
  {
    MulLe(chunk + 1, chunks, side);
  }

  /** The voxel coordinate the loops compute for a brick, `chunk * 16 + brick * BRICK_SIZE`,
      is its brick-grid coordinate `chunk * (16 / BRICK_SIZE) + brick` scaled back up. */
  lemma OriginIsScaled(chunk: nat, brick: nat, side: nat, size: nat)
    requires side * size == CHUNK_SIZE
    ensures chunk * CHUNK_SIZE + brick * size == (chunk * side + brick) * size
  {
    assert (chunk * side + brick) * size == chunk * (side * size) + brick * size;
  }

  lemma OriginOfPosition(side: nat, size: nat, chunkX: nat, chunkZ: nat, brickY: nat, brickX: nat, brickZ: nat)
    requires side * size == CHUNK_SIZE
    ensures BrickOrigin(size, chunkX, chunkZ, brickY, brickX, brickZ)
         == Scaled(BrickPosition(side, chunkX, chunkZ, brickY, brickX, brickZ), size)
  {
    OriginIsScaled(chunkX, brickX, side, size);
    OriginIsScaled(chunkZ, brickZ, side, size);
  }

  lemma AppendAssoc<T>(a: seq<T>, b: seq<T>, c: seq<T>)
    ensures a + b + c == a + (b + c)
  {
  }

  /** One round of the innermost brick loop: fill the brick at loop indices
      `(chunkX, chunkZ, brickY, brickX, brickZ)` and place it. Placement never fails,
      since its position is inside the brickmap's capacity. */
  method PlaceOneBrick(brickmap: CpuBrickmap, t: Terrain, chunkX: nat, chunkZ: nat, brickY: nat, brickX: nat, brickZ: nat, chunks: nat)
    requires t.brickLog <= 4 && chunkX < chunks && chunkZ < chunks
    requires brickY < ChunkSide(t) && brickX < ChunkSide(t) && brickZ < ChunkSide(t)
    requires chunks * ChunkSide(t) <= Pow2(brickmap.depth)
    modifies brickmap
    ensures brickmap.calls == old(brickmap.calls) + [PlaceCall(t, BrickPosition(ChunkSide(t), chunkX, chunkZ, brickY, brickX, brickZ))]
  {
    var size := BrickSize(t);
    ChunkSideDivides(t);
    var side := CHUNK_SIZE / size;
    var brick := FillBrick(t, BrickOrigin(size, chunkX, chunkZ, brickY, brickX, brickZ));
    var pos := BrickPosition(side, chunkX, chunkZ, brickY, brickX, brickZ);
    OriginOfPosition(side, size, chunkX, chunkZ, brickY, brickX, brickZ);
    SlotBelow(chunkX, brickX, side, chunks);
    SlotBelow(chunkZ, brickZ, side, chunks);
    MulLe(1, chunks, side);
    var placed := brickmap.PlaceBrick(brick, pos);
    assert placed.Ok?;
  }

  /** The innermost brick loop: the bricks along `z` at one `(brick_y, brick_x)` of a
      chunk, each filled and placed. */
  method PlaceBrickRow(brickmap: CpuBrickmap, t: Terrain, chunkX: nat, chunkZ: nat, brickY: nat, brickX: nat, chunks: nat)
    requires t.brickLog <= 4 && chunkX < chunks && chunkZ < chunks && brickY < ChunkSide(t) && brickX < ChunkSide(t)
    requires chunks * ChunkSide(t) <= Pow2(brickmap.depth)
    modifies brickmap
    ensures brickmap.calls == old(brickmap.calls) + BzRun(t, chunkX, chunkZ, brickY, brickX, ChunkSide(t))
  {
    ChunkSideDivides(t);
    var side := CHUNK_SIZE / BrickSize(t);
    var brickZ := 0;
    while brickZ < side
      invariant brickZ <= side
      invariant brickmap.calls == old(brickmap.calls) + BzRun(t, chunkX, chunkZ, brickY, brickX, brickZ)
    {
      PlaceOneBrick(brickmap, t, chunkX, chunkZ, brickY, brickX, brickZ, chunks);
      brickZ := brickZ + 1;
    }
  }

  /** The `brick_x` loop: one horizontal layer of bricks of a chunk. */
  method PlaceBrickLayer(brickmap: CpuBrickmap, t: Terrain, chunkX: nat, chunkZ: nat, brickY: nat, chunks: nat)
    requires t.brickLog <= 4 && chunkX < chunks && chunkZ < chunks && brickY < ChunkSide(t)
    requires chunks * ChunkSide(t) <= Pow2(brickmap.depth)
    modifies brickmap
    ensures brickmap.calls == old(brickmap.calls) + BxRun(t, chunkX, chunkZ, brickY, ChunkSide(t))
  {
    ChunkSideDivides(t);
    var side := CHUNK_SIZE / BrickSize(t);
    var brickX := 0;
    while brickX < side
      invariant brickX <= side
      invariant brickmap.calls == old(brickmap.calls) + BxRun(t, chunkX, chunkZ, brickY, brickX)
    {
      PlaceBrickRow(brickmap, t, chunkX, chunkZ, brickY, brickX, chunks);
      AppendAssoc(old(brickmap.calls), BxRun(t, chunkX, chunkZ, brickY, brickX), BzRun(t, chunkX, chunkZ, brickY, brickX, side));
      brickX := brickX + 1;
    }
  }

  /** The `brick_y` loop: all bricks of chunk `(chunk_x, chunk_z)`, layer by layer. */
  method PlaceChunk(brickmap: CpuBrickmap, t: Terrain, chunkX: nat, chunkZ: nat, chunks: nat)
    requires t.brickLog <= 4 && chunkX < chunks && chunkZ < chunks
    requires chunks * ChunkSide(t) <= Pow2(brickmap.depth)
    modifies brickmap
    ensures brickmap.calls == old(brickmap.calls) + ByRun(t, chunkX, chunkZ, ChunkSide(t))
  {
    ChunkSideDivides(t);
    var side := CHUNK_SIZE / BrickSize(t);
    var brickY := 0;
    while brickY < side
      invariant brickY <= side
      invariant brickmap.calls == old(brickmap.calls) + ByRun(t, chunkX, chunkZ, brickY)
    {
      PlaceBrickLayer(brickmap, t, chunkX, chunkZ, brickY, chunks);
      AppendAssoc(old(brickmap.calls), ByRun(t, chunkX, chunkZ, brickY), BxRun(t, chunkX, chunkZ, brickY, side));
      brickY := brickY + 1;
    }
  }

  /** The `chunk_z` loop: the chunks of chunk column `chunk_x`. */
  method PlaceChunkColumn(brickmap: CpuBrickmap, t: Terrain, chunkX: nat, chunks: nat)
    requires t.brickLog <= 4 && chunkX < chunks
    requires chunks * ChunkSide(t) <= Pow2(brickmap.depth)
    modifies brickmap
    ensures brickmap.calls == old(brickmap.calls) + CzRun(t, chunkX, chunks)
  {
    var chunkZ := 0;
    while chunkZ < chunks
      invariant chunkZ <= chunks
      invariant brickmap.calls == old(brickmap.calls) + CzRun(t, chunkX, chunkZ)
    {
      PlaceChunk(brickmap, t, chunkX, chunkZ, chunks);
      AppendAssoc(old(brickmap.calls), CzRun(t, chunkX, chunkZ), ByRun(t, chunkX, chunkZ, ChunkSide(t)));
      chunkZ := chunkZ + 1;
    }
  }

  /** The `chunk_x` loop: every chunk column of the world in turn. */
  method PlaceChunks(brickmap: CpuBrickmap, t: Terrain, chunks: nat)
    requires t.brickLog <= 4
    requires chunks * ChunkSide(t) <= Pow2(brickmap.depth)
    modifies brickmap
    ensures brickmap.calls == old(brickmap.calls) + Placements(t, chunks)
  {
    var chunkX := 0;
    while chunkX < chunks
      invariant chunkX <= chunks
      invariant brickmap.calls == old(brickmap.calls) + CxRun(t, chunkX, chunks)
    {
      PlaceChunkColumn(brickmap, t, chunkX, chunks);
      AppendAssoc(old(brickmap.calls), CxRun(t, chunkX, chunks), CzRun(t, chunkX, chunks));
      chunkX := chunkX + 1;
    }
  }

  datatype BuildError = MissingColour(key: string)

  /** `setup_voxels`: creates a brickmap of depth `world_depth - log2 BRICK_SIZE`, loads
      the palette, fills and places every brick chunk by chunk, then recreates the
      mipmaps once. Fails, before placing anything, when the palette has no dirt colour. */
  method SetupVoxels(heights: seq<seq<nat>>, worldDepth: nat, brickLog: nat, file: map<string, Rgba>)
      returns (r: Result<CpuBrickmap, BuildError>)
    requires brickLog <= 4 && brickLog <= worldDepth < 32
    ensures r.Err? <==> DIRT_KEY !in file
    ensures r.Ok? ==> fresh(r.value) && r.value.depth == worldDepth - brickLog
    ensures r.Ok? ==>
              r.value.calls
              == Placements(Terrain(heights, GRASS_COLOUR, file[DIRT_KEY], brickLog), Pow2(worldDepth) / CHUNK_SIZE)
                 + [Mipmapped]
  {
    var brickmap := new CpuBrickmap(worldDepth - brickLog);
    var palette := LoadPalette(file);
    var grass := palette[GRASS_KEY];
    if DIRT_KEY !in palette {
      return Err(MissingColour(DIRT_KEY));
    }
    var dirt := palette[DIRT_KEY];
    var t := Terrain(heights, grass, dirt, brickLog);
    var sideLength := Pow2(worldDepth);
    var chunks := sideLength / CHUNK_SIZE;
    SetupGeometry(worldDepth, brickLog);
    assert chunks * ChunkSide(t) <= Pow2(brickmap.depth);
    PlaceChunks(brickmap, t, chunks);
    brickmap.RecreateMipmaps();
    r := Ok(brickmap);
  }
}
