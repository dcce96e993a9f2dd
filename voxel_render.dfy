/** The instance extraction of the voxel renderer (`prepare_instance_buffers`): it walks
    the GPU brickmap, keeps the nodes that hold a brick, turns each into a
    `BrickInstance` (position, scale, brick index), optionally sorts them by distance
    from the streaming position, and stores them with their count for the instanced
    draw.

    The brickmap's `recursive_search` is not part of this model: its calls to the
    visitor are the input `visits`, in the order it makes them. */
module VoxelRender {
  import opened Wrappers
  import opened Math
  import opened Sorting

  /** One call of the `recursive_search` visitor: node index, the node's accumulated
      integer coordinate, and its tree depth (root = 0). */
  datatype Visit = Visit(index: nat, pos: UVec3, depth: nat)

  /** What the extractor reads of `GpuVoxelWorld`: the flat node array, the tree depth
      and the threshold `BRICK_OFFSET` that separates internal nodes from bricks. */
  datatype GpuVoxelWorld = GpuVoxelWorld(brickmap: seq<nat>, brickmapDepth: nat, brickOffset: nat)

  /** `BrickInstance`: where a brick is drawn, how large, and which brick it is. */
  datatype BrickInstance = BrickInstance(position: Vec3, scale: nat, brick: nat)

  /** The sorting switches of `VoxelVolume`; its `streaming_pos` enters only through
      the distance function handed to `PrepareInstanceBuffers`. */
  datatype VoxelVolume = VoxelVolume(sort: bool, sortReverse: bool)

  /** `InstanceBuffer`: the uploaded instances and the stored `length`. */
  datatype InstanceBuffer = InstanceBuffer(instances: seq<BrickInstance>, length: nat)

  /** The panic of a `u32` subtraction that goes below zero (overflow checks on). */
  datatype Panic = SubtractWithOverflow

  /** Every visited node index can be read from the node array. */
  ghost predicate Indexable(world: GpuVoxelWorld, visits: seq<Visit>)
  {
    forall i :: 0 <= i < |visits| ==> visits[i].index < |world.brickmap|
  }

  /** The node holds a brick: its value lies above `BRICK_OFFSET`. Zero (empty) and
      internal-node pointers lie at or below it. */
  predicate IsBrickNode(world: GpuVoxelWorld, v: Visit)
    requires v.index < |world.brickmap|
  {
    world.brickmap[v.index] > world.brickOffset
  }

  /** The visit yields an instance: a brick node no deeper than the tree. */
  predicate Emits(world: GpuVoxelWorld, v: Visit)
    requires v.index < |world.brickmap|
  {
    IsBrickNode(world, v) && v.depth <= world.brickmapDepth
  }

  /** The instance of an emitting visit: the coordinate moved by the centring offset
      `2^(depth-1)`, the scale `2^(depth - node depth)` and the brick index
      `value - BRICK_OFFSET`. */
  function InstanceOf(world: GpuVoxelWorld, v: Visit): (r: BrickInstance)
    requires world.brickmapDepth >= 1
    requires v.index < |world.brickmap| && Emits(world, v)
    ensures r.brick >= 1 && r.brick + world.brickOffset == world.brickmap[v.index]
    ensures r.scale >= 1 && (v.depth == world.brickmapDepth ==> r.scale == 1)
    ensures r.scale * Pow2(v.depth) == Pow2(world.brickmapDepth)
  {
    var centre := Pow2(world.brickmapDepth - 1);
    Pow2Add(world.brickmapDepth - v.depth, v.depth);
    BrickInstance(
      Vec3(v.pos.x - centre, v.pos.y - centre, v.pos.z - centre),
      Pow2(world.brickmapDepth - v.depth),
      world.brickmap[v.index] - world.brickOffset)
  }

  /** The instances the visitor collects from `visits`, in visit order. */
  function Collected(world: GpuVoxelWorld, visits: seq<Visit>): seq<BrickInstance>
    requires world.brickmapDepth >= 1 && Indexable(world, visits)
  {
    if visits == [] then []
    else
      var last := visits[|visits| - 1];
      Collected(world, visits[..|visits| - 1])
        + (if Emits(world, last) then [InstanceOf(world, last)] else [])
  }

  /** The visitor closure run over the traversal, pushing onto the instance vector. This
      is the corrected visitor: the depth guard is tested before the scale is computed
      (see `CollectAsWritten`). */
  method CollectInstances(world: GpuVoxelWorld, visits: seq<Visit>) returns (data: seq<BrickInstance>)
    requires world.brickmapDepth >= 1 && Indexable(world, visits)
    ensures data == Collected(world, visits)
  {
    data := [];
    var i := 0;
    while i < |visits|
      invariant 0 <= i <= |visits|
      invariant data == Collected(world, visits[..i])
    {
      var v := visits[i];
      assert visits[..i + 1][..i] == visits[..i];
      if world.brickmap[v.index] > world.brickOffset && v.depth <= world.brickmapDepth {
        var centre := Pow2(world.brickmapDepth - 1);
        var position := Vec3(v.pos.x - centre, v.pos.y - centre, v.pos.z - centre);
        var scale := Pow2(world.brickmapDepth - v.depth);
        var brick := world.brickmap[v.index] - world.brickOffset;
        data := data + [BrickInstance(position, scale, brick)];
      }
      i := i + 1;
    }
    assert visits[..|visits|] == visits;
  }

  /** Each collected instance comes from its own emitting visit, in visit order, and
      every emitting visit contributes one: the output is exactly the filtered visits. */
  lemma {:induction false} CollectedOrigins(world: GpuVoxelWorld, visits: seq<Visit>) returns (origin: seq<nat>)
    requires world.brickmapDepth >= 1 && Indexable(world, visits)
    ensures |origin| == |Collected(world, visits)|
    ensures forall i :: 0 <= i < |origin| ==> origin[i] < |visits|
    ensures forall i, j :: 0 <= i < j < |origin| ==> origin[i] < origin[j]
    ensures forall i :: 0 <= i < |origin| ==>
              Emits(world, visits[origin[i]]) && Collected(world, visits)[i] == InstanceOf(world, visits[origin[i]])
    ensures forall j :: 0 <= j < |visits| && Emits(world, visits[j]) ==> j in origin
  {
    if visits == [] {
      origin := [];
    } else {
      var n := |visits| - 1;
      var prefix := visits[..n];
      assert Indexable(world, prefix);
      var before := CollectedOrigins(world, prefix);
      if Emits(world, visits[n]) {
        origin := before + [n];
      } else {
        origin := before;
      }
    }
  }

  /** Membership both ways: an instance is collected exactly when some visit emits it. */
  lemma CollectedMembers(world: GpuVoxelWorld, visits: seq<Visit>, x: BrickInstance)
    requires world.brickmapDepth >= 1 && Indexable(world, visits)
    ensures x in Collected(world, visits)
        <==> exists j :: 0 <= j < |visits| && Emits(world, visits[j]) && x == InstanceOf(world, visits[j])
  {
    var origin := CollectedOrigins(world, visits);
    var out := Collected(world, visits);
    if x in out {
      var i :| 0 <= i < |out| && out[i] == x;
      assert Emits(world, visits[origin[i]]);
    }
    if j :| 0 <= j < |visits| && Emits(world, visits[j]) && x == InstanceOf(world, visits[j]) {
      var i :| 0 <= i < |origin| && origin[i] == j;
      assert out[i] == x;
    }
  }

  /** The collected instances are no more than the visits. */
  lemma CollectedLength(world: GpuVoxelWorld, visits: seq<Visit>)
    requires world.brickmapDepth >= 1 && Indexable(world, visits)
    ensures |Collected(world, visits)| <= |visits|
  {
    var origin := CollectedOrigins(world, visits);
    StrictlyIncreasingBound(origin, |visits|);
  }

  lemma {:induction false} StrictlyIncreasingBound(s: seq<nat>, n: nat)
    requires forall i :: 0 <= i < |s| ==> s[i] < n
    requires forall i, j :: 0 <= i < j < |s| ==> s[i] < s[j]
    ensures |s| <= n
  {
    if s != [] {
      var last := s[|s| - 1];
      StrictlyIncreasingBound(s[..|s| - 1], last);
    }
  }

  /** The visitor as written: the scale `1 << (brickmap_depth - depth)` is computed with
      a `u32` subtraction before the guard `depth > brickmap_depth`, and the centring
      shift `1 << (brickmap_depth - 1)` likewise; in builds with overflow checks either
      subtraction panics when it would go below zero. Non-brick nodes return before both. */
  function VisitAsWritten(world: GpuVoxelWorld, v: Visit): (r: Result<Option<BrickInstance>, Panic>)
    requires v.index < |world.brickmap|
    ensures r.Err? <==> IsBrickNode(world, v) && (world.brickmapDepth < 1 || v.depth > world.brickmapDepth)
    ensures r.Ok? ==> (r.value.Some? <==> IsBrickNode(world, v))
    ensures r.Ok? && r.value.Some? ==>
              world.brickmapDepth >= 1 && Emits(world, v) && r.value.value == InstanceOf(world, v)
  {
    if world.brickmap[v.index] <= world.brickOffset then Ok(None)
    else if world.brickmapDepth < 1 then Err(SubtractWithOverflow)
    else if v.depth > world.brickmapDepth then Err(SubtractWithOverflow)
    else Ok(Some(InstanceOf(world, v)))
  }

  /** The vector the visitor as written fills, or the panic that ends the traversal.
      When it does not panic it collects what the corrected visitor collects, and at
      depth 0 that is nothing. */
  function CollectAsWritten(world: GpuVoxelWorld, visits: seq<Visit>): (r: Result<seq<BrickInstance>, Panic>)
    requires Indexable(world, visits)
    ensures r.Ok? && world.brickmapDepth >= 1 ==> r.value == Collected(world, visits)
    ensures r.Ok? && world.brickmapDepth < 1 ==> r.value == []
    ensures r.Err? ==> exists i :: 0 <= i < |visits| && VisitAsWritten(world, visits[i]).Err?
  {
    if visits == [] then Ok([])
    else
      match CollectAsWritten(world, visits[..|visits| - 1])
      case Err(p) => Err(p)
      case Ok(data) =>
        match VisitAsWritten(world, visits[|visits| - 1])
        case Err(p) => Err(p)
        case Ok(None) => Ok(data)
        case Ok(Some(inst)) => Ok(data + [inst])
  }

  /** As written, a brick node reached below the tree's depth panics: the depth guard
      that was meant to log and skip it is never reached. The corrected visitor skips it. */
  lemma AsWrittenPanicsOnDeepBrick(world: GpuVoxelWorld, visits: seq<Visit>, j: nat)
    requires Indexable(world, visits)
    requires j < |visits| && IsBrickNode(world, visits[j]) && visits[j].depth > world.brickmapDepth
    ensures CollectAsWritten(world, visits).Err?
    ensures world.brickmapDepth >= 1 ==> Collected(world, [visits[j]]) == []
  {
    AsWrittenPanicsFrom(world, visits, j);
  }

  lemma {:induction false} AsWrittenPanicsFrom(world: GpuVoxelWorld, visits: seq<Visit>, j: nat)
    requires Indexable(world, visits)
    requires j < |visits| && VisitAsWritten(world, visits[j]).Err?
    ensures CollectAsWritten(world, visits).Err?
  {
    var n := |visits| - 1;
    if j < n {
      assert visits[..n][j] == visits[j];
      AsWrittenPanicsFrom(world, visits[..n], j);
    }
  }

  /** Without brick nodes the visitor as written returns before either shift, so it
      collects nothing and does not panic, at any tree depth, zero included. */
  lemma {:induction false} AsWrittenWithoutBricks(world: GpuVoxelWorld, visits: seq<Visit>)
    requires Indexable(world, visits)
    requires forall i :: 0 <= i < |visits| ==> !IsBrickNode(world, visits[i])
    ensures CollectAsWritten(world, visits) == Ok([])
  {
    if visits != [] {
      AsWrittenWithoutBricks(world, visits[..|visits| - 1]);
    }
  }

  /** The smallest input that shows it: a one-node tree of depth 1 whose node holds brick
      1 and is reported at depth 2. */
  lemma AsWrittenCounterexample()
    ensures CollectAsWritten(GpuVoxelWorld([11], 1, 10), [Visit(0, UVec3(0, 0, 0), 2)])
         == Err(SubtractWithOverflow)
    ensures Collected(GpuVoxelWorld([11], 1, 10), [Visit(0, UVec3(0, 0, 0), 2)]) == []
  {
    var w := GpuVoxelWorld([11], 1, 10);
    var vs := [Visit(0, UVec3(0, 0, 0), 2)];
    assert vs[..0] == [];
    assert CollectAsWritten(w, vs[..0]) == Ok([]);
    assert Collected(w, vs[..0]) == [];
  }

  /** Where every brick node lies within the tree's depth, the visitor as written and the
      corrected one produce the same instances. */
  lemma {:induction false} AsWrittenAgrees(world: GpuVoxelWorld, visits: seq<Visit>)
    requires world.brickmapDepth >= 1 && Indexable(world, visits)
    requires forall i :: 0 <= i < |visits| && IsBrickNode(world, visits[i]) ==> visits[i].depth <= world.brickmapDepth
    ensures CollectAsWritten(world, visits) == Ok(Collected(world, visits))
  {
    if visits != [] {
      var n := |visits| - 1;
      var prefix := visits[..n];
      assert forall i :: 0 <= i < n ==> prefix[i] == visits[i];
      AsWrittenAgrees(world, prefix);
      var last := visits[n];
      if Emits(world, last) {
        assert VisitAsWritten(world, last) == Ok(Some(InstanceOf(world, last)));
        assert CollectAsWritten(world, visits) == Ok(Collected(world, prefix) + [InstanceOf(world, last)]);
      } else {
        assert VisitAsWritten(world, last) == Ok(None);
        assert CollectAsWritten(world, visits) == Ok(Collected(world, prefix));
        assert Collected(world, visits) == Collected(world, prefix) + [];
        assert Collected(world, prefix) + [] == Collected(world, prefix);
      }
    }
  }

  /** The sort key of `sort_by_cached_key`: the distance, negated when `sort_reverse` is set. */
  function SortKey(volume: VoxelVolume, distance: BrickInstance -> int): BrickInstance -> int
  {
    (inst: BrickInstance) => if volume.sortReverse then -distance(inst) else distance(inst)
  }

  /** `prepare_instance_buffers`: collect, optionally sort by distance from the streaming
      position (`distance` abstracts that floating-point distance), and store the
      instances with their count. */
  method PrepareInstanceBuffers(world: GpuVoxelWorld, visits: seq<Visit>, volume: VoxelVolume,
                                distance: BrickInstance -> int)
    returns (buffer: InstanceBuffer)
    requires world.brickmapDepth >= 1 && Indexable(world, visits)
    ensures buffer.length == |buffer.instances|
    ensures multiset(buffer.instances) == multiset(Collected(world, visits))
    ensures !volume.sort ==> buffer.instances == Collected(world, visits)
    ensures volume.sort && !volume.sortReverse ==>
              forall i, j :: 0 <= i < j < |buffer.instances| ==>
                distance(buffer.instances[i]) <= distance(buffer.instances[j])
    ensures volume.sort && volume.sortReverse ==>
              forall i, j :: 0 <= i < j < |buffer.instances| ==>
                distance(buffer.instances[i]) >= distance(buffer.instances[j])
    ensures volume.sort ==> forall k ::
              KeyClass(buffer.instances, SortKey(volume, distance), k)
              == KeyClass(Collected(world, visits), SortKey(volume, distance), k)
  {
    var data := CollectInstances(world, visits);
    if volume.sort {
      var key := SortKey(volume, distance);
      var sorted := SortByKey(data, key);
      forall k
        ensures KeyClass(sorted, key, k) == KeyClass(data, key, k)
      {
        SortByKeyStable(data, key, k);
      }
      assert SortedBy(sorted, key);
      data := sorted;
    }
    buffer := InstanceBuffer(data, |data|);
  }

  /** The instance range of the draw call, `0..length as u32`. */
  function DrawnInstances(buffer: InstanceBuffer): (r: nat)
    ensures r < 0x1_0000_0000
    ensures buffer.length < 0x1_0000_0000 ==> r == buffer.length
  {
    buffer.length % 0x1_0000_0000
  }

  // The layout of `BrickInstance` as uploaded and as the vertex stage reads it.

  /** A 4-byte word of the uploaded buffer. */
  datatype Word = F32Word(f: int) | U32Word(u: nat)

  /** The `repr(C)` fields of `BrickInstance` in declaration order, with their sizes in
      bytes: `position: Vec3` (12), `scale: f32` (4), `brick: u32` (4). */
  const INSTANCE_FIELD_SIZES: seq<nat> := [12, 4, 4]

  /** `repr(C)` offsets: every field here is 4-aligned and a multiple of 4 bytes long,
      so each field starts where the previous one ends. */
  function FieldOffsets(sizes: seq<nat>): (r: seq<nat>)
    ensures |r| == |sizes|
  {
    if |sizes| <= 1 then (if sizes == [] then [] else [0])
    else
      var before := FieldOffsets(sizes[..|sizes| - 1]);
      before + [before[|sizes| - 2] + sizes[|sizes| - 2]]
  }

  /** `size_of`: the sum of the field sizes (no tail padding is needed at alignment 4). */
  function StructSize(sizes: seq<nat>): nat
  {
    if sizes == [] then 0 else StructSize(sizes[..|sizes| - 1]) + sizes[|sizes| - 1]
  }

  datatype VertexFormat = Float32x4 | Uint32

  function FormatSize(f: VertexFormat): nat
  {
    match f
    case Float32x4 => 16
    case Uint32 => 4
  }

  datatype VertexAttribute = VertexAttribute(format: VertexFormat, offset: nat, shaderLocation: nat)

  /** The instance attributes of the pipeline: a `Float32x4` at offset 0 (location 3) and
      a `Uint32` at offset 16 (location 4). */
  const INSTANCE_ATTRIBUTES: seq<VertexAttribute> :=
    [VertexAttribute(Float32x4, 0, 3), VertexAttribute(Uint32, 16, 4)]

  /** The bytes of one instance as `cast_slice` uploads them, one word per 4 bytes, in
      field order. */
  function InstanceWords(inst: BrickInstance): seq<Word>
  {
    [F32Word(inst.position.x), F32Word(inst.position.y), F32Word(inst.position.z),
     F32Word(inst.scale), U32Word(inst.brick)]
  }

  /** The words an attribute reads from one instance record. */
  function ReadAttribute(words: seq<Word>, attr: VertexAttribute): seq<Word>
    requires attr.offset % 4 == 0 && attr.offset + FormatSize(attr.format) <= 4 * |words|
  {
    words[attr.offset / 4 .. (attr.offset + FormatSize(attr.format)) / 4]
  }

  /** What the vertex stage reconstructs from one record through the two attributes. */
  function DecodeInstance(words: seq<Word>): Option<BrickInstance>
    requires |words| == 5
  {
    var a := ReadAttribute(words, INSTANCE_ATTRIBUTES[0]);
    var b := ReadAttribute(words, INSTANCE_ATTRIBUTES[1]);
    if a[0].F32Word? && a[1].F32Word? && a[2].F32Word? && a[3].F32Word? && a[3].f >= 0 && b[0].U32Word?
    then Some(BrickInstance(Vec3(a[0].f, a[1].f, a[2].f), a[3].f, b[0].u))
    else None
  }

  /** The record layout and the vertex attributes agree: the stride is `size_of`, the
      `Float32x4` covers position and scale, the `Uint32` starts at the brick field, and
      reading a record back through them gives the instance that was written. */
  lemma InstanceLayoutRoundTrip(inst: BrickInstance)
    ensures FieldOffsets(INSTANCE_FIELD_SIZES) == [0, 12, 16]
    ensures StructSize(INSTANCE_FIELD_SIZES) == 4 * |InstanceWords(inst)| == 20
    ensures INSTANCE_ATTRIBUTES[0].offset == FieldOffsets(INSTANCE_FIELD_SIZES)[0]
    ensures INSTANCE_ATTRIBUTES[0].offset + FormatSize(INSTANCE_ATTRIBUTES[0].format)
         == FieldOffsets(INSTANCE_FIELD_SIZES)[2]
    ensures INSTANCE_ATTRIBUTES[1].offset == FieldOffsets(INSTANCE_FIELD_SIZES)[2]
    ensures INSTANCE_ATTRIBUTES[1].offset + FormatSize(INSTANCE_ATTRIBUTES[1].format)
         == StructSize(INSTANCE_FIELD_SIZES)
    ensures DecodeInstance(InstanceWords(inst)) == Some(inst)
  {
    var sizes := INSTANCE_FIELD_SIZES;
    assert sizes[..2] == [12, 4] && sizes[..2][..1] == [12] && [12][..0] == [];
    assert StructSize([12]) == 12;
    assert StructSize([12, 4]) == 16;
  }
}
