/**
 * The host-independent part of import_vox: the rotation byte decoded into
 * a signed 3x3 matrix, the metadata stored on each created object for the
 * round trip, the per-face colours of a voxel mesh, and the objects the
 * import creates from a scene's instances.
 */
module Importer {
  import opened Wrappers
  import opened Voxels
  import opened Text
  import opened Graph
  import opened Bytes
  import opened ReadVox

  // ---------------------------------------------------------------------
  // apply_vox_rotation

  type Matrix = seq<seq<int>>

  /** A list index outside the list (IndexError). */
  datatype ImportError = IndexError

  /** rotation_index & 0x3; Python's & on a negative int agrees with the Euclidean remainder. */
  function Idx1(code: int): int {
    code % 4
  }

  /** (rotation_index >> 2) & 0x3 */
  function Idx2(code: int): int {
    (code / 4) % 4
  }

  /** 3 - idx1 - idx2: the column left over when idx1 and idx2 are two different columns. */
  function Idx3(code: int): int {
    3 - Idx1(code) - Idx2(code)
  }

  /** -1 when the bit of the given weight (16, 32 or 64) is set in the code, else 1. */
  function Sign(code: int, weight: nat): int
    requires weight > 0
  {
    if (code / weight) % 2 == 1 then -1 else 1
  }

  /** The element a Python list of length n holds at index i: negative indices count from the end. */
  function PyIndex(i: int, n: nat): (r: Option<nat>)
    ensures r.Some? <==> -(n as int) <= i < n
    ensures r.Some? ==> r.value < n && (r.value == i || r.value == n + i)
  {
    if 0 <= i < n then Some(i) else if -(n as int) <= i < 0 then Some(n + i) else None
  }

  /** A row of three zeros with s at column c. */
  function RowWith(c: nat, s: int): (row: seq<int>)
    requires c < 3
    ensures |row| == 3
    ensures forall j :: 0 <= j < 3 ==> row[j] == (if j == c then s else 0)
  {
    [0, 0, 0][c := s]
  }

  /**
   * apply_vox_rotation: code 0 leaves the object as it is (None); any other
   * code writes sign1, sign2 and sign3 at columns idx1, idx2 and idx3 of
   * rows 0, 1 and 2, and raises IndexError where a column is outside the
   * row.
   */
  function Rotation(code: int): (r: Result<Option<Matrix>, ImportError>)
    ensures r == Success(None) <==> code == 0
  {
    if code == 0 then Success(None)
    else
      match (PyIndex(Idx1(code), 3), PyIndex(Idx2(code), 3), PyIndex(Idx3(code), 3))
      case (Some(c1), Some(c2), Some(c3)) =>
        Success(Some([RowWith(c1, Sign(code, 16)), RowWith(c2, Sign(code, 32)), RowWith(c3, Sign(code, 64))]))
      case _ => Failure(IndexError)
  }

  method ApplyVoxRotation(code: int) returns (r: Result<Option<Matrix>, ImportError>)
    ensures r == Rotation(code)
  {
    if code == 0 {
      return Success(None);
    }
    var idx1, idx2 := code % 4, (code / 4) % 4;
    var sign1 := if (code / 16) % 2 == 1 then -1 else 1;
    var sign2 := if (code / 32) % 2 == 1 then -1 else 1;
    var sign3 := if (code / 64) % 2 == 1 then -1 else 1;
    var idx3 := 3 - idx1 - idx2;
    var mat: Matrix := [[0, 0, 0], [0, 0, 0], [0, 0, 0]];
    var c1, c2, c3 := PyIndex(idx1, 3), PyIndex(idx2, 3), PyIndex(idx3, 3);
    if c1.None? || c2.None? || c3.None? {
      return Failure(IndexError);
    }
    mat := mat[0 := mat[0][c1.value := sign1]];
    mat := mat[1 := mat[1][c2.value := sign2]];
    mat := mat[2 := mat[2][c3.value := sign3]];
    assert sign1 == Sign(code, 16) && sign2 == Sign(code, 32) && sign3 == Sign(code, 64);
    assert mat == [RowWith(c1.value, sign1), RowWith(c2.value, sign2), RowWith(c3.value, sign3)];
    r := Success(Some(mat));
  }

  /** Every entry is 0, 1 or -1, and exactly one is not 0. */
  predicate IsUnitVector(v: seq<int>) {
    && (forall k :: 0 <= k < |v| ==> v[k] == 0 || v[k] == 1 || v[k] == -1)
    && exists k :: 0 <= k < |v| && v[k] != 0 && forall k' :: 0 <= k' < |v| && k' != k ==> v[k'] == 0
  }

  /** Column j of a 3x3 matrix. */
  function Column(m: Matrix, j: int): seq<int>
    requires |m| == 3 && forall i :: 0 <= i < 3 ==> |m[i]| == 3
    requires 0 <= j < 3
  {
    [m[0][j], m[1][j], m[2][j]]
  }

  /** A signed permutation matrix: every row and every column is a unit vector. */
  predicate IsSignedPermutation(m: Matrix) {
    && |m| == 3
    && (forall i :: 0 <= i < 3 ==> |m[i]| == 3)
    && (forall i :: 0 <= i < 3 ==> IsUnitVector(m[i]))
    && (forall j :: 0 <= j < 3 ==> IsUnitVector(Column(m, j)))
  }

  lemma UnitRowWith(c: nat, s: int)
    requires c < 3 && (s == 1 || s == -1)
    ensures IsUnitVector(RowWith(c, s))
  {
    var row := RowWith(c, s);
    if c == 0 {
      assert row == [s, 0, 0];
    } else if c == 1 {
      assert row == [0, s, 0];
    } else {
      assert row == [0, 0, s];
    }
    assert row[c] != 0 && forall k' :: 0 <= k' < |row| && k' != c ==> row[k'] == 0;
  }

  /** A code whose first two columns are different columns of the row is a signed permutation with the coded signs. */
  lemma RotationIsSignedPermutation(code: int)
    requires code != 0 && Idx1(code) < 3 && Idx2(code) < 3 && Idx1(code) != Idx2(code)
    ensures Rotation(code).Success? && Rotation(code).value.Some?
    ensures var m := Rotation(code).value.value;
      && IsSignedPermutation(m)
      && m[0][Idx1(code)] == Sign(code, 16)
      && m[1][Idx2(code)] == Sign(code, 32)
      && m[2][Idx3(code)] == Sign(code, 64)
  {
    var c1, c2, c3 := Idx1(code), Idx2(code), Idx3(code);
    var s1, s2, s3 := Sign(code, 16), Sign(code, 32), Sign(code, 64);
    assert 0 <= c3 < 3 && c3 != c1 && c3 != c2;
    var m := [RowWith(c1, s1), RowWith(c2, s2), RowWith(c3, s3)];
    assert Rotation(code) == Success(Some(m));
    UnitRowWith(c1, s1);
    UnitRowWith(c2, s2);
    UnitRowWith(c3, s3);
    forall j | 0 <= j < 3
      ensures IsUnitVector(Column(m, j))
    {
      if j == c1 {
        assert Column(m, j) == RowWith(0, s1);
        UnitRowWith(0, s1);
      } else if j == c2 {
        assert Column(m, j) == RowWith(1, s2);
        UnitRowWith(1, s2);
      } else {
        assert Column(m, j) == RowWith(2, s3);
        UnitRowWith(2, s3);
      }
    }
  }

  /** The decode raises IndexError exactly when idx1 or idx2 is 3, or both are 0 (idx3 is then 3). */
  lemma RotationFails(code: int)
    ensures Rotation(code).Failure? <==> code != 0 && (Idx1(code) == 3 || Idx2(code) == 3 || Idx1(code) + Idx2(code) == 0)
  {
  }

  /** When idx1 and idx2 are the same column 1 or 2 the decode succeeds but is no rotation: every row uses the same column. */
  lemma RotationDegenerate(code: int)
    requires code != 0 && Idx1(code) == Idx2(code) && 1 <= Idx1(code) <= 2
    ensures Rotation(code).Success? && Rotation(code).value.Some?
    ensures !IsSignedPermutation(Rotation(code).value.value)
  {
    var m := Rotation(code).value.value;
    var c := Idx1(code);
    var unused := if c == 1 then 0 else 1;
    assert Column(m, unused) == [0, 0, 0];
  }

  // ---------------------------------------------------------------------
  // Metadata: store_vox_metadata_for_model and get_vox_metadata

  /** The name of the custom property the metadata is stored under. */
  const VOX_METADATA_PROP: string := "vox_metadata"

  /** The metadata dict: source file, model size, voxel records and the whole palette. */
  datatype VoxMetadata = VoxMetadata(sourceFile: string, size: (int, int, int), voxels: seq<Voxel>, palette: seq<Rgba>)

  /**
   * A custom property's value: the JSON text of a metadata dict (json.dumps
   * and json.loads are taken to be inverse), or a value json.loads
   * rejects (JSONDecodeError, TypeError).
   */
  datatype Property = JsonText(payload: VoxMetadata) | Unparsable

  /** The part of a Blender object the importer and exporter touch: its name and custom properties. */
  datatype BlenderObject = BlenderObject(name: string, props: map<string, Property>)

  /** The metadata store_vox_metadata_for_model writes for a model and the scene palette. */
  function Payload(m: Model, palette: seq<Rgba>, path: string): VoxMetadata {
    VoxMetadata(path, (m.sizeX, m.sizeY, m.sizeZ), m.voxels, palette)
  }

  /** get_vox_metadata: the parsed dict, or {} (None) when the property is absent or not JSON. */
  function GetVoxMetadata(obj: BlenderObject): (r: Option<VoxMetadata>)
    ensures r.Some? <==> VOX_METADATA_PROP in obj.props && obj.props[VOX_METADATA_PROP].JsonText?
  {
    if VOX_METADATA_PROP in obj.props then
      match obj.props[VOX_METADATA_PROP]
      case JsonText(p) => Some(p)
      case Unparsable => None
    else None
  }

  /** store_vox_metadata_for_model: sets the metadata property and leaves every other property alone. */
  function StoreVoxMetadata(obj: BlenderObject, m: Model, palette: seq<Rgba>, path: string): (r: BlenderObject)
    ensures r.name == obj.name
    ensures forall k :: k != VOX_METADATA_PROP ==> (k in r.props <==> k in obj.props)
    ensures forall k :: k != VOX_METADATA_PROP && k in obj.props ==> r.props[k] == obj.props[k]
  {
    obj.(props := obj.props[VOX_METADATA_PROP := JsonText(Payload(m, palette, path))])
  }

  /** What was stored is read back: the model's size, its voxels in order and the palette whole. */
  lemma StoredMetadataReadBack(obj: BlenderObject, m: Model, palette: seq<Rgba>, path: string)
    ensures GetVoxMetadata(StoreVoxMetadata(obj, m, palette, path)).Some?
    ensures var meta := GetVoxMetadata(StoreVoxMetadata(obj, m, palette, path)).value;
      && meta.size == (m.sizeX, m.sizeY, m.sizeZ)
      && |meta.voxels| == |m.voxels|
      && (forall i :: 0 <= i < |m.voxels| ==> meta.voxels[i] == m.voxels[i])
      && meta.palette == palette
      && meta.sourceFile == path
  {
  }

  // ---------------------------------------------------------------------
  // Face colours: create_model_object and add_vertex_colors_for_model

  /** Every voxel cube has six faces. */
  const FACES_PER_VOXEL: int := 6

  /** (face_start, face_count, color_idx) for one voxel. */
  datatype FaceRange = FaceRange(start: int, count: int, colorIndex: int)

  /** Voxel k owns the six faces [6k, 6k + 6) and keeps its colour index. */
  predicate OwnsFaces(ranges: seq<FaceRange>, voxels: seq<Voxel>) {
    && |ranges| == |voxels|
    && forall k :: 0 <= k < |ranges| ==> ranges[k] == FaceRange(FACES_PER_VOXEL * k, FACES_PER_VOXEL, voxels[k].colorIndex)
  }

  /** The face list create_model_object builds while adding one cube per voxel. */
  method VoxelFaceRanges(voxels: seq<Voxel>) returns (ranges: seq<FaceRange>)
    ensures OwnsFaces(ranges, voxels)
  {
    ranges := [];
    var faceIdx := 0;
    for k := 0 to |voxels|
      invariant faceIdx == FACES_PER_VOXEL * k
      invariant OwnsFaces(ranges, voxels[..k])
    {
      var facesCreated := FACES_PER_VOXEL;
      ranges := ranges + [FaceRange(faceIdx, facesCreated, voxels[k].colorIndex)];
      faceIdx := faceIdx + facesCreated;
    }
    assert voxels[..|voxels|] == voxels;
  }

  /** A face colour: an 8-bit RGBA colour (divided by 255 in Blender) or the 0.7 grey of uncovered faces. */
  datatype Shade = Rgba8(c: Rgba) | Grey

  const WHITE: Rgba := Rgba(255, 255, 255, 255)

  /** The colour of a voxel's faces: palette[idx - 1] when idx is in 1..255 and inside the palette, else white. */
  function VoxelShade(palette: seq<Rgba>, colorIndex: int): Shade {
    if 1 <= colorIndex <= 255 && colorIndex - 1 < |palette| then Rgba8(palette[colorIndex - 1]) else Rgba8(WHITE)
  }

  /** m with the faces start, start + 1, ..., start + count - 1 set to s, one after the other. */
  function Fill(m: map<int, Shade>, start: int, count: int, s: Shade): map<int, Shade>
    decreases count
  {
    if count <= 0 then m else Fill(m, start, count - 1, s)[start + count - 1 := s]
  }

  lemma {:induction false} FillAt(m: map<int, Shade>, start: int, count: int, s: Shade, f: int)
    ensures f in Fill(m, start, count, s) <==> f in m || start <= f < start + count
    ensures start <= f < start + count ==> Fill(m, start, count, s)[f] == s
    ensures !(start <= f < start + count) && f in m ==> Fill(m, start, count, s)[f] == m[f]
    decreases count
  {
    if count > 0 {
      FillAt(m, start, count - 1, s, f);
    }
  }

  /** face_to_color after the given ranges: each range's faces set to its voxel's colour, later ranges winning. */
  function FaceMap(palette: seq<Rgba>, ranges: seq<FaceRange>): map<int, Shade> {
    if ranges == [] then map[]
    else
      var r := ranges[|ranges| - 1];
      Fill(FaceMap(palette, ranges[..|ranges| - 1]), r.start, r.count, VoxelShade(palette, r.colorIndex))
  }

  /** face_to_color.get(poly_idx, grey) */
  function ShadeOf(faces: map<int, Shade>, p: int): Shade {
    if p in faces then faces[p] else Grey
  }

  /** add_vertex_colors_for_model: the dict filled range by range, then one colour per polygon. */
  method AddVertexColors(palette: seq<Rgba>, ranges: seq<FaceRange>, polygonCount: nat) returns (shades: seq<Shade>)
    ensures |shades| == polygonCount
    ensures forall p :: 0 <= p < polygonCount ==> shades[p] == ShadeOf(FaceMap(palette, ranges), p)
  {
    var faceToColor: map<int, Shade> := map[];
    for i := 0 to |ranges|
      invariant faceToColor == FaceMap(palette, ranges[..i])
    {
      var r := ranges[i];
      var color := if 1 <= r.colorIndex <= 255 && r.colorIndex - 1 < |palette| then Rgba8(palette[r.colorIndex - 1]) else Rgba8(WHITE);
      ghost var before := faceToColor;
      var fi := r.start;
      while fi < r.start + r.count
        invariant r.start <= fi && (fi <= r.start + r.count || fi == r.start)
        invariant faceToColor == Fill(before, r.start, fi - r.start, color)
      {
        faceToColor := faceToColor[fi := color];
        fi := fi + 1;
      }
      assert faceToColor == Fill(before, r.start, r.count, color);
      assert ranges[..i + 1][..i] == ranges[..i];
    }
    assert ranges[..|ranges|] == ranges;
    shades := [];
    for p := 0 to polygonCount
      invariant |shades| == p
      invariant forall q :: 0 <= q < p ==> shades[q] == ShadeOf(faceToColor, q)
    {
      var color := if p in faceToColor then faceToColor[p] else Grey;
      shades := shades + [color];
    }
  }

  lemma OwnsFacesPrefix(ranges: seq<FaceRange>, voxels: seq<Voxel>, n: int)
    requires OwnsFaces(ranges, voxels) && 0 <= n <= |ranges|
    ensures OwnsFaces(ranges[..n], voxels[..n])
  {
  }

  /** After the first n voxels, exactly the faces [0, 6n) are coloured, face f with the colour of voxel f / 6. */
  lemma {:induction false} FaceMapCovers(palette: seq<Rgba>, ranges: seq<FaceRange>, voxels: seq<Voxel>, f: int)
    requires OwnsFaces(ranges, voxels)
    ensures f in FaceMap(palette, ranges) <==> 0 <= f < FACES_PER_VOXEL * |voxels|
    ensures 0 <= f < FACES_PER_VOXEL * |voxels| ==> FaceMap(palette, ranges)[f] == VoxelShade(palette, voxels[f / FACES_PER_VOXEL].colorIndex)
    decreases |ranges|
  {
    if ranges != [] {
      var n := |ranges| - 1;
      OwnsFacesPrefix(ranges, voxels, n);
      FaceMapCovers(palette, ranges[..n], voxels[..n], f);
      var r := ranges[n];
      FillAt(FaceMap(palette, ranges[..n]), r.start, r.count, VoxelShade(palette, r.colorIndex), f);
      if 0 <= f < FACES_PER_VOXEL * |voxels| && f / FACES_PER_VOXEL < n {
        assert voxels[..n][f / FACES_PER_VOXEL] == voxels[f / FACES_PER_VOXEL];
      }
    }
  }

  /** Every face of a voxel mesh gets its voxel's colour; no face of it is left grey. */
  lemma VoxelFacesShaded(palette: seq<Rgba>, ranges: seq<FaceRange>, voxels: seq<Voxel>, f: int)
    requires OwnsFaces(ranges, voxels) && 0 <= f < FACES_PER_VOXEL * |voxels|
    ensures ShadeOf(FaceMap(palette, ranges), f) == VoxelShade(palette, voxels[f / FACES_PER_VOXEL].colorIndex)
    ensures ShadeOf(FaceMap(palette, ranges), f) != Grey
  {
    FaceMapCovers(palette, ranges, voxels, f);
  }

  /** With a full palette a face shows exactly the colour get_voxel_color gives its voxel. */
  lemma ShadeAgreesWithReader(d: VoxelData, colorIndex: int)
    requires |d.palette| == 256
    ensures VoxelColor(d, colorIndex).Some?
    ensures VoxelShade(d.palette, colorIndex) == Rgba8(VoxelColor(d, colorIndex).value)
  {
  }

  /** The colours of the 6 * |voxels| faces of a model's mesh, in face order. */
  function FaceShades(palette: seq<Rgba>, voxels: seq<Voxel>): (r: seq<Shade>)
    ensures |r| == FACES_PER_VOXEL * |voxels|
  {
    if voxels == [] then []
    else
      var s := VoxelShade(palette, voxels[|voxels| - 1].colorIndex);
      FaceShades(palette, voxels[..|voxels| - 1]) + [s, s, s, s, s, s]
  }

  /** Face f of the mesh has the colour of voxel f / 6. */
  lemma {:induction false} FaceShadesAt(palette: seq<Rgba>, voxels: seq<Voxel>, f: int)
    requires 0 <= f < FACES_PER_VOXEL * |voxels|
    ensures FaceShades(palette, voxels)[f] == VoxelShade(palette, voxels[f / FACES_PER_VOXEL].colorIndex)
    decreases |voxels|
  {
    var n := |voxels| - 1;
    if f < FACES_PER_VOXEL * n {
      FaceShadesAt(palette, voxels[..n], f);
      assert voxels[..n][f / FACES_PER_VOXEL] == voxels[f / FACES_PER_VOXEL];
    }
  }

  /** create_model_object's colouring: the face ranges of the cubes, then the vertex colours when asked for. */
  method ModelFaceShades(palette: seq<Rgba>, voxels: seq<Voxel>, useVertexColors: bool) returns (shades: Option<seq<Shade>>)
    ensures shades == if useVertexColors then Some(FaceShades(palette, voxels)) else None
  {
    var ranges := VoxelFaceRanges(voxels);
    if !useVertexColors {
      return None;
    }
    var s := AddVertexColors(palette, ranges, FACES_PER_VOXEL * |voxels|);
    forall f | 0 <= f < |s|
      ensures s[f] == FaceShades(palette, voxels)[f]
    {
      VoxelFacesShaded(palette, ranges, voxels, f);
      FaceShadesAt(palette, voxels, f);
    }
    assert s == FaceShades(palette, voxels);
    shades := Some(s);
  }

  // ---------------------------------------------------------------------
  // import_vox

  /** One created object: the Blender object with its metadata, its model, placement and colours. */
  datatype ImportedObject = ImportedObject(
    blenderObject: BlenderObject, model: Model, translation: (int, int, int), rotation: Option<Matrix>, shades: Option<seq<Shade>>)

  /** What import_vox returns: None (no instances), one object, or the list of objects. */
  datatype Imported = NoObjects | Single(obj: ImportedObject) | Several(objs: seq<ImportedObject>)

  /** The object created for one instance whose model exists; a bad rotation code raises IndexError. */
  function ObjectFor(scene: VoxScene, inst: Instance, name: string, path: string, useVertexColors: bool): Result<ImportedObject, ImportError>
    requires inst.modelId < |scene.models|
  {
    var model := scene.models[inst.modelId];
    match Rotation(inst.rotation)
    case Failure(e) => Failure(e)
    case Success(rot) =>
      var obj := StoreVoxMetadata(BlenderObject(name, map[]), model, scene.palette, path);
      Success(ImportedObject(obj, model, inst.translation, rot,
        if useVertexColors then Some(FaceShades(scene.palette, model.voxels)) else None))
  }

  /** The name of the idx-th object of a multi-instance import: the instance's name, else base_idx. */
  function InstanceName(inst: Instance, baseName: string, idx: nat): string {
    if inst.name != "" then inst.name else baseName + "_" + FormatNat(idx)
  }

  /** The objects the multi-instance loop has created after the first n instances; invalid model ids are skipped. */
  function ImportMany(scene: VoxScene, baseName: string, path: string, useVertexColors: bool, n: nat): Result<seq<ImportedObject>, ImportError>
    requires n <= |scene.instances|
  {
    if n == 0 then Success([])
    else
      match ImportMany(scene, baseName, path, useVertexColors, n - 1)
      case Failure(e) => Failure(e)
      case Success(objs) =>
        var inst := scene.instances[n - 1];
        if inst.modelId >= |scene.models| then Success(objs)
        else
          match ObjectFor(scene, inst, InstanceName(inst, baseName, n - 1), path, useVertexColors)
          case Failure(e) => Failure(e)
          case Success(o) => Success(objs + [o])
  }

  /**
   * import_vox after reading the scene: nothing without instances; a single
   * instance becomes one object named after it or after the file (its
   * model id is not checked); several become a list, skipping instances
   * whose model does not exist.
   */
  function ImportScene(scene: VoxScene, baseName: string, path: string, useVertexColors: bool): Result<Imported, ImportError> {
    if scene.instances == [] then Success(NoObjects)
    else if |scene.instances| == 1 then
      var inst := scene.instances[0];
      if inst.modelId >= |scene.models| then Failure(IndexError)
      else
        match ObjectFor(scene, inst, if inst.name != "" then inst.name else baseName, path, useVertexColors)
        case Failure(e) => Failure(e)
        case Success(o) => Success(Single(o))
    else
      match ImportMany(scene, baseName, path, useVertexColors, |scene.instances|)
      case Failure(e) => Failure(e)
      case Success(objs) => Success(Several(objs))
  }

  method CreateObject(scene: VoxScene, inst: Instance, name: string, path: string, useVertexColors: bool)
    returns (r: Result<ImportedObject, ImportError>)
    requires inst.modelId < |scene.models|
    ensures r == ObjectFor(scene, inst, name, path, useVertexColors)
  {
    var model := scene.models[inst.modelId];
    var shades := ModelFaceShades(scene.palette, model.voxels, useVertexColors);
    var rot := ApplyVoxRotation(inst.rotation);
    if rot.Failure? {
      return Failure(rot.error);
    }
    var obj := StoreVoxMetadata(BlenderObject(name, map[]), model, scene.palette, path);
    r := Success(ImportedObject(obj, model, inst.translation, rot.value, shades));
  }

  method ImportVox(scene: VoxScene, baseName: string, path: string, useVertexColors: bool) returns (r: Result<Imported, ImportError>)
    ensures r == ImportScene(scene, baseName, path, useVertexColors)
  {
    if |scene.instances| == 0 {
      return Success(NoObjects);
    }
    if |scene.instances| == 1 {
      var inst := scene.instances[0];
      if inst.modelId >= |scene.models| {
        return Failure(IndexError);
      }
      var o := CreateObject(scene, inst, if inst.name != "" then inst.name else baseName, path, useVertexColors);
      if o.Failure? {
        return Failure(o.error);
      }
      return Success(Single(o.value));
    }
    var created: seq<ImportedObject> := [];
    for idx := 0 to |scene.instances|
      invariant ImportMany(scene, baseName, path, useVertexColors, idx) == Success(created)
    {
      var inst := scene.instances[idx];
      if inst.modelId >= |scene.models| {
        continue;
      }
      var o := CreateObject(scene, inst, InstanceName(inst, baseName, idx), path, useVertexColors);
      if o.Failure? {
        ImportManyFails(scene, baseName, path, useVertexColors, idx + 1, |scene.instances|);
        return Failure(IndexError);
      }
      created := created + [o.value];
    }
    r := Success(Several(created));
  }

  /** Once the loop has raised, the import raises. */
  lemma {:induction false} ImportManyFails(scene: VoxScene, baseName: string, path: string, useVertexColors: bool, k: nat, n: nat)
    requires k <= n <= |scene.instances|
    requires ImportMany(scene, baseName, path, useVertexColors, k).Failure?
    ensures ImportMany(scene, baseName, path, useVertexColors, n) == Failure(IndexError)
    decreases n
  {
    var e := ImportMany(scene, baseName, path, useVertexColors, k).error;
    assert e == IndexError by {
      match e {
        case IndexError =>
      }
    }
    if n > k {
      ImportManyFails(scene, baseName, path, useVertexColors, k, n - 1);
    }
  }

  // ---------------------------------------------------------------------
  // Properties of the import

  /** Instances whose model id is out of range create nothing. */
  lemma SkipsInvalidInstance(scene: VoxScene, baseName: string, path: string, useVertexColors: bool, n: nat)
    requires n < |scene.instances| && scene.instances[n].modelId >= |scene.models|
    ensures ImportMany(scene, baseName, path, useVertexColors, n + 1) == ImportMany(scene, baseName, path, useVertexColors, n)
  {
  }

  /**
   * With every model id valid and every rotation code decodable, instance i
   * becomes object i: its model, its name, its placement, and metadata
   * that reads back as that model with the scene palette.
   */
  lemma {:induction false} ImportManyAll(scene: VoxScene, baseName: string, path: string, useVertexColors: bool, n: nat)
    requires n <= |scene.instances|
    requires forall i :: 0 <= i < |scene.instances| ==> scene.instances[i].modelId < |scene.models|
    requires forall i :: 0 <= i < |scene.instances| ==> Rotation(scene.instances[i].rotation).Success?
    ensures ImportMany(scene, baseName, path, useVertexColors, n).Success?
    ensures |ImportMany(scene, baseName, path, useVertexColors, n).value| == n
    ensures forall i :: 0 <= i < n ==>
      var o, inst := ImportMany(scene, baseName, path, useVertexColors, n).value[i], scene.instances[i];
      && o.model == scene.models[inst.modelId]
      && o.blenderObject.name == InstanceName(inst, baseName, i)
      && o.translation == inst.translation
      && GetVoxMetadata(o.blenderObject) == Some(Payload(o.model, scene.palette, path))
    decreases n
  {
    if n > 0 {
      ImportManyAll(scene, baseName, path, useVertexColors, n - 1);
      var inst := scene.instances[n - 1];
      var prev := ImportMany(scene, baseName, path, useVertexColors, n - 1).value;
      var o := ObjectFor(scene, inst, InstanceName(inst, baseName, n - 1), path, useVertexColors).value;
      assert ImportMany(scene, baseName, path, useVertexColors, n).value == prev + [o];
    }
  }

  /** A scene read from a file with decodable rotations imports every instance, none skipped. */
  lemma ImportFileScene(data: seq<byte>, baseName: string, path: string, useVertexColors: bool)
    requires SceneOf(data).Success?
    requires forall i :: 0 <= i < |SceneOf(data).value.instances| ==> Rotation(SceneOf(data).value.instances[i].rotation).Success?
    ensures ImportScene(SceneOf(data).value, baseName, path, useVertexColors).Success?
    ensures var scene, r := SceneOf(data).value, ImportScene(SceneOf(data).value, baseName, path, useVertexColors).value;
      && (scene.models == [] <==> r == NoObjects)
      && (r.Several? ==> |r.objs| == |scene.instances|)
  {
    var scene := SceneOf(data).value;
    SceneShape(data);
    forall i | 0 <= i < |scene.instances|
      ensures scene.instances[i].modelId < |scene.models|
    {
      assert scene.instances[i] in scene.instances;
    }
    if |scene.instances| > 1 {
      ImportManyAll(scene, baseName, path, useVertexColors, |scene.instances|);
    }
  }
}
