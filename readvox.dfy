/**
 * read_vox_scene from the file's bytes on, read_vox_file (the legacy
 * single-model view) and get_voxel_color.
 */
module ReadVox {
  import opened Wrappers
  import opened Bytes
  import opened Voxels
  import opened Reader
  import opened Scene
  import opened Graph

  /** The scene of a .vox file: its models, its 256-entry palette and the placed instances. */
  datatype VoxScene = VoxScene(models: seq<Model>, palette: seq<Rgba>, instances: seq<Instance>)

  /** One model with a palette, as read_vox_file returns it. */
  datatype VoxelData = VoxelData(sizeX: int, sizeY: int, sizeZ: int, voxels: seq<Voxel>, palette: seq<Rgba>)

  /**
   * read_vox_scene on the bytes of a file: the magic check (ValueError), the
   * version word (struct.error when cut short; its value only prints a
   * warning), the chunk scan, the model pass, the graph pass and the
   * instances.
   */
  function SceneOf(data: seq<byte>): Result<VoxScene, ReadError> {
    if Slice(data, 0, 4) != MAGIC then Failure(NotVox)
    else if |data| < 8 then Failure(Truncated)
    else
      var chunks := ScanFrom(data, 8);
      match ModelsOf(chunks)
      case Failure(e) => Failure(e)
      case Success(st) =>
        match GraphOf(chunks)
        case Failure(e) => Failure(e)
        case Success(g) => Success(VoxScene(st.models, st.palette, InstancesOf(g, |st.models|)))
  }

  method ReadVoxScene(data: seq<byte>) returns (r: Result<VoxScene, ReadError>)
    ensures r == SceneOf(data)
  {
    var magic := Slice(data, 0, 4);
    if magic != MAGIC {
      return Failure(NotVox);
    }
    if |data| < 8 {
      return Failure(Truncated);
    }
    var chunks := ScanChunks(data);
    var pass := ReadModels(chunks);
    if pass.Failure? {
      return Failure(pass.error);
    }
    var graph := ReadGraph(chunks);
    if graph.Failure? {
      return Failure(graph.error);
    }
    var instances := BuildInstances(graph.value, |pass.value.models|);
    return Success(VoxScene(pass.value.models, pass.value.palette, instances));
  }

  /** read_vox_file: the first model with the scene's palette, or an empty 1x1x1 model. */
  function VoxFileOf(data: seq<byte>): Result<VoxelData, ReadError> {
    match SceneOf(data)
    case Failure(e) => Failure(e)
    case Success(scene) =>
      if scene.models == [] then Success(VoxelData(1, 1, 1, [], if scene.palette != [] then scene.palette else DefaultPalette()))
      else
        var m := scene.models[0];
        Success(VoxelData(m.sizeX, m.sizeY, m.sizeZ, m.voxels, scene.palette))
  }

  /**
   * get_voxel_color: index i in 1..255 is palette[i - 1] (None when the
   * palette is too short: an IndexError); any other index is opaque white.
   */
  function VoxelColor(d: VoxelData, colorIndex: int): Option<Rgba> {
    if 1 <= colorIndex <= 255 then
      if colorIndex - 1 < |d.palette| then Some(d.palette[colorIndex - 1]) else None
    else Some(Rgba(255, 255, 255, 255))
  }

  // ---------------------------------------------------------------------
  // Properties

  /** The scan from a position past the header reads nothing before it. */
  lemma {:induction false} ScanIgnoresHeader(data: seq<byte>, data': seq<byte>, pos: nat)
    requires |data| == |data'| && pos >= 8
    requires forall k :: 8 <= k < |data| ==> data[k] == data'[k]
    ensures ScanFrom(data, pos) == ScanFrom(data', pos)
    decreases |data| - pos
  {
    if pos + 12 <= |data| {
      assert data[pos..pos + 4] == data'[pos..pos + 4];
      assert data[pos + 4..pos + 8] == data'[pos + 4..pos + 8];
      var next := ChunkEnd(data, pos);
      assert next == ChunkEnd(data', pos);
      assert Slice(data, pos + 12, next) == Slice(data', pos + 12, next);
      ScanIgnoresHeader(data, data', next);
    }
  }

  /** The file is rejected as not a .vox file exactly when it does not start with "VOX ". */
  lemma NotVoxIff(data: seq<byte>)
    ensures SceneOf(data) == Failure(NotVox) <==> Slice(data, 0, 4) != MAGIC
  {
    if Slice(data, 0, 4) == MAGIC && |data| >= 8 {
      GraphFromErrors(Graph([], []), ScanFrom(data, 8));
    }
  }

  /** The version word is read but has no effect on the scene. */
  lemma VersionIgnored(data: seq<byte>, data': seq<byte>)
    requires |data| == |data'| && |data| >= 8
    requires data[..4] == data'[..4]
    requires forall k :: 8 <= k < |data| ==> data[k] == data'[k]
    ensures SceneOf(data) == SceneOf(data')
  {
    ScanIgnoresHeader(data, data', 8);
  }

  /** A scene read from a file has a 256-entry palette, only instances of its models, and instances exactly when it has models. */
  lemma SceneShape(data: seq<byte>)
    requires SceneOf(data).Success?
    ensures |SceneOf(data).value.palette| == 256
    ensures forall inst :: inst in SceneOf(data).value.instances ==> inst.modelId < |SceneOf(data).value.models|
    ensures SceneOf(data).value.instances != [] <==> SceneOf(data).value.models != []
  {
    var chunks := ScanFrom(data, 8);
    var st := ModelsOf(chunks).value;
    var g := GraphOf(chunks).value;
    PaletteSize(chunks, DefaultPalette());
    forall inst | inst in InstancesOf(g, |st.models|)
      ensures inst.modelId < |st.models|
    {
      InstancesInRange(g, |st.models|, inst);
    }
    InstancesPresent(g, |st.models|);
  }

  /** read_vox_file keeps the scene's first model and palette, and is a 1x1x1 empty model when there is none. */
  lemma VoxFileFirstModel(data: seq<byte>)
    requires SceneOf(data).Success?
    ensures VoxFileOf(data).Success?
    ensures var scene, d := SceneOf(data).value, VoxFileOf(data).value;
      && d.palette == scene.palette
      && (scene.models == [] ==> d == VoxelData(1, 1, 1, [], scene.palette))
      && (scene.models != [] ==> Model(d.sizeX, d.sizeY, d.sizeZ, d.voxels) == scene.models[0])
  {
    SceneShape(data);
  }

  /** The palette of a file that was read has 256 entries. */
  lemma VoxFilePalette(data: seq<byte>)
    requires VoxFileOf(data).Success?
    ensures |VoxFileOf(data).value.palette| == 256
  {
    VoxFileFirstModel(data);
    SceneShape(data);
  }

  /** With a full palette every colour index has a colour: 1..255 shifted down by one, anything else white. */
  lemma VoxelColorTotal(d: VoxelData, colorIndex: int)
    requires |d.palette| == 256
    ensures VoxelColor(d, colorIndex).Some?
    ensures 1 <= colorIndex <= 255 ==> VoxelColor(d, colorIndex).value == d.palette[colorIndex - 1]
    ensures !(1 <= colorIndex <= 255) ==> VoxelColor(d, colorIndex).value == Rgba(255, 255, 255, 255)
  {
  }

  /** get_voxel_color never raises on what read_vox_file returns. */
  lemma VoxFileColors(data: seq<byte>, colorIndex: int)
    requires VoxFileOf(data).Success?
    ensures VoxelColor(VoxFileOf(data).value, colorIndex).Some?
  {
    VoxFilePalette(data);
  }
}
