/** Loading the height map: the grey level of every sampled pixel of an image becomes
    the height of one column, and the builder runs only once both the height map and
    the world-setup marker exist.

    Opening and decoding the image file is I/O: its outcome (a decoded image or the
    error) is a parameter. The log lines are left out. */
module HeightMapper {
  import opened Wrappers
  import opened Math

  /** Sampling resolution: every `SAMPLE_STEP`-th pixel in each direction. */
  const SAMPLE_STEP: nat := 1

  /** A grey level, `to_luma()[0]`: one byte. */
  type Luma = l: nat | l < 256

  /** A decoded image: its dimensions, and the grey level of the pixel at column `x`,
      row `y` (read only inside the dimensions). */
  datatype Image = Image(width: nat, height: nat, luma: (nat, nat) -> Luma)

  /** The `Heightmap` resource: rows of column heights, `rows[z][x]`. */
  datatype Heightmap = Heightmap(rows: seq<seq<nat>>)

  /** The `WorldSetup` marker resource. */
  datatype WorldSetup = WorldSetup

  /** The grid `vec![vec![0; width]; height]`. */
  function Zeros(width: nat, height: nat): (grid: seq<seq<nat>>)
    ensures |grid| == height
    ensures forall r :: 0 <= r < height ==> |grid[r]| == width && forall c :: 0 <= c < width ==> grid[r][c] == 0
  {
    seq(height, _ => seq(width, _ => 0))
  }

  /** Row `sy` of a sampling: one entry per strided column inside the image, entry `sx`
      the grey level of pixel `(sx * step, sy * step)`. */
  predicate RowSampled(img: Image, step: nat, sy: nat, row: seq<nat>)
    requires step >= 1
  {
    && |row| == CeilDiv(img.width, step)
    && forall sx :: 0 <= sx < |row| ==> sx * step < img.width && row[sx] == img.luma(sx * step, sy * step)
  }

  /** The inner sampling loop, over the pixels of image row `y == sy * step`. */
  method SampleRow(img: Image, step: nat, sy: nat, y: nat, row: seq<nat>) returns (sampled: seq<nat>)
    requires step >= 1 && y == sy * step && |row| == CeilDiv(img.width, step)
    ensures RowSampled(img, step, sy, sampled)
  {
    sampled := row;
    var x, sx := 0, 0;
    CeilDivBound(img.width, step, 0);
    while x < img.width
      invariant x == sx * step
      invariant sx <= |row| && (sx < |row| <==> x < img.width)
      invariant |sampled| == |row|
      invariant forall c :: 0 <= c < sx ==> sampled[c] == img.luma(c * step, y)
      decreases img.width - x
    {
      var luminance := img.luma(x, y);
      sampled := sampled[sx := luminance];
      x, sx := x + step, sx + 1;
      CeilDivBound(img.width, step, sx);
    }
    forall c | 0 <= c < |sampled|
      ensures c * step < img.width
    {
      CeilDivBound(img.width, step, c);
    }
  }

  /** The sampling loops: row `sy` holds the pixels of image row `sy * step`, column `sx`
      the pixel of image column `sx * step`; there are as many rows and columns as there
      are strided positions inside the image, and every one of them is read inside it. */
  method SampleHeightmap(img: Image, step: nat) returns (grid: seq<seq<nat>>)
    requires step >= 1
    ensures |grid| == CeilDiv(img.height, step)
    ensures forall sy :: 0 <= sy < |grid| ==> sy * step < img.height && RowSampled(img, step, sy, grid[sy])
  {
    var sampledWidth := (img.width + step - 1) / step;
    var sampledHeight := (img.height + step - 1) / step;
    grid := Zeros(sampledWidth, sampledHeight);
    var y, sy := 0, 0;
    CeilDivBound(img.height, step, 0);
    while y < img.height
      invariant y == sy * step
      invariant sy <= sampledHeight && (sy < sampledHeight <==> y < img.height)
      invariant |grid| == sampledHeight
      invariant forall r :: sy <= r < sampledHeight ==> |grid[r]| == sampledWidth
      invariant forall r :: 0 <= r < sy ==> r * step < img.height && RowSampled(img, step, r, grid[r])
      decreases img.height - y
    {
      var row := SampleRow(img, step, sy, y, grid[sy]);
      grid := grid[sy := row];
      y, sy := y + step, sy + 1;
      CeilDivBound(img.height, step, sy);
    }
  }

  /** `load_and_process_heightmap`: no height map when the image cannot be opened;
      otherwise, with a step of one, the height of column `(x, z)` is the grey level of
      pixel `(x, z)`, for every pixel of the image. */
  method LoadAndProcessHeightmap(loaded: Result<Image, string>) returns (r: Option<Heightmap>)
    ensures r.None? <==> loaded.Err?
    ensures loaded.Ok? ==>
              var img := loaded.value;
              && |r.value.rows| == img.height
              && forall z :: 0 <= z < img.height ==>
                   && |r.value.rows[z]| == img.width
                   && forall x :: 0 <= x < img.width ==> r.value.rows[z][x] == img.luma(x, z) < 256
  {
    match loaded {
      case Ok(img) =>
        var grid := SampleHeightmap(img, SAMPLE_STEP);
        assert forall z :: 0 <= z < |grid| ==> RowSampled(img, SAMPLE_STEP, z, grid[z]);
        r := Some(Heightmap(grid));
      case Err(_) =>
        r := None;
    }
  }

  /** `run_setup`: the builder runs exactly when both resources are present. */
  function RunSetup(heightMap: Option<Heightmap>, worldSetup: Option<WorldSetup>): (run: bool)
    ensures run <==> heightMap.Some? && worldSetup.Some?
  {
    match worldSetup
    case Some(_) => heightMap.Some?
    case None => false
  }
}
