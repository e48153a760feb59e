/**
 * The .vox writer: a chunk and its bytes, the model, palette and writer
 * objects that build chunks, and the byte layout of a whole file
 * ("VOX ", version 150, then one MAIN chunk whose children are an optional
 * PACK, a SIZE and an XYZI per model, and the RGBA palette).
 */
module Writer {
  import opened Wrappers
  import opened Bytes
  import opened Voxels

  /** Writing fails only where struct.pack rejects a value (struct.error). */
  datatype WriteError = StructError

  const VOX_VERSION: int := 150

  /** A chunk: its four-character id, its own content, its children's bytes. */
  datatype Chunk = Chunk(id: string, content: seq<byte>, children: seq<byte>)

  predicate IsU32(n: int) {
    0 <= n < TWO_32
  }

  /** What to_bytes can pack: an ASCII id and two lengths that fit '<I'. */
  predicate Packable(c: Chunk) {
    IsAscii(c.id) && IsU32(|c.content|) && IsU32(|c.children|)
  }

  /** VoxChunk.to_bytes: the id, the content length, the children length, the content, the children. */
  function ChunkBytes(c: Chunk): (r: seq<byte>)
    requires Packable(c)
    ensures |r| == |c.id| + 8 + |c.content| + |c.children|
  {
    AsciiEncode(c.id) + U32LE(|c.content|) + U32LE(|c.children|) + c.content + c.children
  }

  /**
   * The layout a reader relies on: the id's bytes come first, both lengths
   * can be read back at offsets |id| and |id| + 4, and the content and the
   * children follow at |id| + 8.
   */
  lemma ChunkLayout(c: Chunk)
    requires Packable(c)
    ensures ChunkBytes(c)[..|c.id|] == AsciiEncode(c.id)
    ensures U32At(ChunkBytes(c), |c.id|) == Some(|c.content|)
    ensures U32At(ChunkBytes(c), |c.id| + 4) == Some(|c.children|)
    ensures ChunkBytes(c)[|c.id| + 8..|c.id| + 8 + |c.content|] == c.content
    ensures ChunkBytes(c)[|c.id| + 8 + |c.content|..] == c.children
  {
    var id := AsciiEncode(c.id);
    var r := ChunkBytes(c);
    U32AtEncoded(id, |c.content|, U32LE(|c.children|) + c.content + c.children);
    assert r == id + U32LE(|c.content|) + (U32LE(|c.children|) + c.content + c.children);
    U32AtEncoded(id + U32LE(|c.content|), |c.children|, c.content + c.children);
    assert r == (id + U32LE(|c.content|)) + U32LE(|c.children|) + (c.content + c.children);
  }

  predicate InByte(n: int) {
    0 <= n < 256
  }

  /** The ranges VoxModel.add_voxel admits. */
  predicate Addable(v: Voxel) {
    InByte(v.x) && InByte(v.y) && InByte(v.z) && 1 <= v.colorIndex <= 255
  }

  /** What struct.pack('<BBBB', x, y, z, i) admits. */
  predicate PackableVoxel(v: Voxel) {
    InByte(v.x) && InByte(v.y) && InByte(v.z) && InByte(v.colorIndex)
  }

  /** The four bytes one voxel occupies in an XYZI chunk. */
  function PackVoxel(v: Voxel): (r: seq<byte>)
    requires PackableVoxel(v)
    ensures |r| == 4
  {
    [v.x, v.y, v.z, v.colorIndex]
  }

  predicate AllPackable(vs: seq<Voxel>) {
    forall i :: 0 <= i < |vs| ==> PackableVoxel(vs[i])
  }

  /** The voxel records of an XYZI chunk: voxel k at bytes [4k, 4k + 4), in list order. */
  function VoxelsBytes(vs: seq<Voxel>): (r: seq<byte>)
    requires AllPackable(vs)
    ensures |r| == 4 * |vs|
  {
    seq(4 * |vs|, j requires 0 <= j < 4 * |vs| => PackVoxel(vs[j / 4])[j % 4])
  }

  /** The SIZE chunk packs three '<I' values. */
  predicate SizeFits(m: Model) {
    IsU32(m.sizeX) && IsU32(m.sizeY) && IsU32(m.sizeZ)
  }

  /** The XYZI chunk packs the count as '<I' and each voxel as '<BBBB'. */
  predicate XyziFits(m: Model) {
    IsU32(|m.voxels|) && AllPackable(m.voxels)
  }

  /** Everything about one model that write packs, lengths included. */
  predicate ModelFits(m: Model) {
    SizeFits(m) && XyziFits(m) && IsU32(4 + 4 * |m.voxels|)
  }

  function SizeChunk(m: Model): (c: Chunk)
    requires SizeFits(m)
    ensures Packable(c) && |c.content| == 12
  {
    Chunk("SIZE", U32LE(m.sizeX) + U32LE(m.sizeY) + U32LE(m.sizeZ), [])
  }

  function XyziChunk(m: Model): (c: Chunk)
    requires XyziFits(m)
    ensures |c.content| == 4 + 4 * |m.voxels| && c.children == []
  {
    Chunk("XYZI", U32LE(|m.voxels|) + VoxelsBytes(m.voxels), [])
  }

  /**
   * The colour get_rgba_chunk writes at file position p: palette slot
   * p + 1, or opaque black where p + 1 is past the end of the palette.
   * Slot 0 is never written.
   */
  function RgbaEntry(colors: seq<Rgba>, p: int): Rgba {
    if 0 <= p && p + 1 < |colors| then colors[p + 1] else Rgba(0, 0, 0, 255)
  }

  /** struct.pack('<BBBB', r, g, b, a) of a colour whose channels fit a byte. */
  function PackRgba(c: Rgba): (r: seq<byte>)
    requires ByteRgba(c)
    ensures |r| == 4
  {
    [c.r, c.g, c.b, c.a]
  }

  /** Every colour get_rgba_chunk packs, at file positions 0..255, fits 'BBBB'. */
  predicate PaletteFits(colors: seq<Rgba>) {
    forall p :: 0 <= p < 256 ==> ByteRgba(RgbaEntry(colors, p))
  }

  /**
   * On a palette of 256 slots, the packing fails exactly when one of slots
   * 1..255 holds a channel outside 0..255; slot 0 is never packed.
   */
  lemma PaletteFitsSlots(colors: seq<Rgba>)
    requires |colors| == 256
    ensures PaletteFits(colors) <==> forall k :: 1 <= k < 256 ==> ByteRgba(colors[k])
  {
    if PaletteFits(colors) {
      forall k | 1 <= k < 256
        ensures ByteRgba(colors[k])
      {
        assert RgbaEntry(colors, k - 1) == colors[k];
      }
    }
    if forall k :: 1 <= k < 256 ==> ByteRgba(colors[k]) {
      forall p | 0 <= p < 256
        ensures ByteRgba(RgbaEntry(colors, p))
      {
        if p < 255 {
          assert RgbaEntry(colors, p) == colors[p + 1];
        }
      }
    }
  }

  /** The default colours all pack. */
  lemma DefaultPaletteFits()
    ensures PaletteFits(DefaultPalette())
  {
    var d := DefaultPalette();
    forall p | 0 <= p < 256
      ensures ByteRgba(RgbaEntry(d, p))
    {
      if p < 255 {
        assert RgbaEntry(d, p) == DecodeAabbggrr(DefaultWord(p + 1));
      }
    }
  }

  /**
   * set_color accepts any channels, so a palette that packs keeps packing
   * after set_color exactly when the new colour fits a byte per channel.
   */
  lemma SetColorFits(colors: seq<Rgba>, index: int, c: Rgba)
    requires |colors| == 256 && PaletteFits(colors) && 1 <= index <= 255
    ensures PaletteFits(colors[index := c]) <==> ByteRgba(c)
  {
    var after := colors[index := c];
    PaletteFitsSlots(colors);
    PaletteFitsSlots(after);
    assert after[index] == c;
    forall k | 1 <= k < 256 && k != index
      ensures after[k] == colors[k]
    {
    }
  }

  /** The content of an RGBA chunk: file position k at bytes [4k, 4k + 4), for k in 0..255. */
  function RgbaContent(colors: seq<Rgba>): (r: seq<byte>)
    requires PaletteFits(colors)
    ensures |r| == 1024
  {
    seq(1024, j requires 0 <= j < 1024 => PackRgba(RgbaEntry(colors, j / 4))[j % 4])
  }

  function RgbaChunk(colors: seq<Rgba>): (c: Chunk)
    requires PaletteFits(colors)
    ensures Packable(c) && |c.content| == 1024
  {
    Chunk("RGBA", RgbaContent(colors), [])
  }

  function PackChunk(n: int): (c: Chunk)
    requires IsU32(n)
    ensures Packable(c)
  {
    Chunk("PACK", U32LE(n), [])
  }

  predicate AllFit(ms: seq<Model>) {
    forall i :: 0 <= i < |ms| ==> ModelFits(ms[i])
  }

  /** One model's SIZE chunk followed by its XYZI chunk. */
  function ModelBytes(m: Model): seq<byte>
    requires ModelFits(m)
  {
    ChunkBytes(SizeChunk(m)) + ChunkBytes(XyziChunk(m))
  }

  /** The SIZE and XYZI chunks of every model, in model order. */
  function ModelsBytes(ms: seq<Model>): seq<byte>
    requires AllFit(ms)
  {
    if ms == [] then [] else ModelsBytes(ms[..|ms| - 1]) + ModelBytes(ms[|ms| - 1])
  }

  lemma ModelsBytesStep(ms: seq<Model>, i: int)
    requires 0 <= i < |ms| && AllFit(ms[..i]) && ModelFits(ms[i])
    ensures AllFit(ms[..i + 1])
    ensures ModelsBytes(ms[..i + 1]) == ModelsBytes(ms[..i]) + ModelBytes(ms[i])
  {
    assert ms[..i + 1][..i] == ms[..i];
  }

  /** write emits a PACK chunk, holding the model count, only when there is more than one model. */
  function PackBytes(count: int): seq<byte>
    requires IsU32(count)
  {
    if count > 1 then ChunkBytes(PackChunk(count)) else []
  }

  /** The children of MAIN, in the order write emits them. */
  function MainChildrenBytes(ms: seq<Model>, colors: seq<Rgba>): seq<byte>
    requires AllFit(ms) && IsU32(|ms|) && PaletteFits(colors)
  {
    PackBytes(|ms|) + ModelsBytes(ms) + ChunkBytes(RgbaChunk(colors))
  }

  lemma UnfitNotEncodable(ms: seq<Model>, colors: seq<Rgba>, i: int)
    requires 0 <= i < |ms| && !ModelFits(ms[i])
    ensures !Encodable(ms, colors)
  {
  }

  /** Every value write packs fits its struct format. */
  predicate Encodable(ms: seq<Model>, colors: seq<Rgba>) {
    && AllFit(ms)
    && IsU32(|ms|)
    && PaletteFits(colors)
    && IsU32(|MainChildrenBytes(ms, colors)|)
  }

  /** A file around MAIN's children: the magic "VOX ", the version, then MAIN with no content of its own. */
  function FileAround(children: seq<byte>): (r: seq<byte>)
    requires IsU32(|children|)
    ensures |r| == 20 + |children|
    ensures r[..4] == AsciiEncode("VOX ")
    ensures U32At(r, 4) == Some(VOX_VERSION)
  {
    var main := ChunkBytes(Chunk("MAIN", [], children));
    U32AtEncoded(AsciiEncode("VOX "), VOX_VERSION, main);
    AsciiEncode("VOX ") + U32LE(VOX_VERSION) + main
  }

  /** The bytes write puts in the file. */
  function FileBytes(ms: seq<Model>, colors: seq<Rgba>): seq<byte>
    requires Encodable(ms, colors)
  {
    FileAround(MainChildrenBytes(ms, colors))
  }

  /** The outcome of write: the file's bytes, or struct.error. */
  function WriteResult(ms: seq<Model>, colors: seq<Rgba>): Result<seq<byte>, WriteError> {
    if Encodable(ms, colors) then Success(FileBytes(ms, colors)) else Failure(StructError)
  }

  /** VoxModel: a model's size and the voxels added to it so far. */
  class VoxModel {
    var sizeX: int
    var sizeY: int
    var sizeZ: int
    var voxels: seq<Voxel>

    /** Every voxel went through add_voxel's range checks. */
    ghost predicate Valid()
      reads this
    {
      forall i :: 0 <= i < |voxels| ==> Addable(voxels[i])
    }

    function Data(): Model
      reads this
    {
      Model(sizeX, sizeY, sizeZ, voxels)
    }

    constructor (sx: int, sy: int, sz: int)
      ensures Valid()
      ensures Data() == Model(sx, sy, sz, [])
    {
      sizeX, sizeY, sizeZ := sx, sy, sz;
      voxels := [];
    }

    /** add_voxel: appends the voxel, or raises ValueError (ok false) when a field is out of range. */
    method AddVoxel(x: int, y: int, z: int, colorIndex: int) returns (ok: bool)
      requires Valid()
      modifies this
      ensures Valid()
      ensures ok <==> Addable(Voxel(x, y, z, colorIndex))
      ensures ok ==> Data() == old(Data()).(voxels := old(voxels) + [Voxel(x, y, z, colorIndex)])
      ensures !ok ==> Data() == old(Data())
    {
      var v := Voxel(x, y, z, colorIndex);
      if !(InByte(x) && InByte(y) && InByte(z)) {
        return false;
      }
      if !(1 <= colorIndex <= 255) {
        return false;
      }
      voxels := voxels + [v];
      ok := true;
    }

    /** get_size_chunk: fails exactly when a size does not fit '<I'. */
    method GetSizeChunk() returns (r: Result<Chunk, WriteError>)
      ensures r.Success? <==> SizeFits(Data())
      ensures r.Success? ==> r.value == SizeChunk(Data())
    {
      if !(IsU32(sizeX) && IsU32(sizeY) && IsU32(sizeZ)) {
        return Failure(StructError);
      }
      var content := U32LE(sizeX) + U32LE(sizeY) + U32LE(sizeZ);
      r := Success(Chunk("SIZE", content, []));
    }

    /** get_xyzi_chunk: the count, then one four-byte record per voxel. */
    method GetXyziChunk() returns (r: Result<Chunk, WriteError>)
      requires Valid()
      ensures r.Success? <==> IsU32(|voxels|)
      ensures r.Success? ==> XyziFits(Data()) && r.value == XyziChunk(Data())
    {
      if !IsU32(|voxels|) {
        return Failure(StructError);
      }
      var records: seq<byte> := [];
      for i := 0 to |voxels|
        invariant |records| == 4 * i
        invariant forall j :: 0 <= j < 4 * i ==> records[j] == PackVoxel(voxels[j / 4])[j % 4]
      {
        var v := voxels[i];
        records := records + [v.x, v.y, v.z, v.colorIndex];
      }
      var content := U32LE(|voxels|) + records;
      r := Success(Chunk("XYZI", content, []));
    }

    /** The bytes write appends for one model (SIZE then XYZI), or struct.error. */
    method GetChunksBytes() returns (r: Result<seq<byte>, WriteError>)
      requires Valid()
      ensures r.Success? <==> ModelFits(Data())
      ensures r.Success? ==> r.value == ModelBytes(Data())
    {
      var size := GetSizeChunk();
      if size.Failure? {
        return Failure(StructError);
      }
      var xyzi := GetXyziChunk();
      if xyzi.Failure? || !Packable(xyzi.value) {
        return Failure(StructError);
      }
      r := Success(ChunkBytes(size.value) + ChunkBytes(xyzi.value));
    }
  }

  /** VoxPalette: 256 colour slots; slot 0 is reserved and never written. */
  class VoxPalette {
    var colors: seq<Rgba>

    ghost predicate Valid()
      reads this
    {
      |colors| == 256
    }

    /** A new palette holds MagicaVoxel's default colours. */
    constructor ()
      ensures Valid()
      ensures colors == DefaultPalette()
    {
      var defaults := DecodeDefaultTable();
      colors := defaults;
    }

    /** set_color: replaces slot index, or raises ValueError (ok false) outside 1..255. */
    method SetColor(index: int, c: Rgba) returns (ok: bool)
      requires Valid()
      modifies this
      ensures Valid()
      ensures ok <==> 1 <= index <= 255
      ensures ok ==> colors == old(colors)[index := c]
      ensures !ok ==> colors == old(colors)
    {
      if !(1 <= index <= 255) {
        return false;
      }
      colors := colors[index := c];
      ok := true;
    }

    /**
     * get_rgba_chunk: file position i holds slot i + 1, for i in 0..255, or
     * struct.error when a packed channel is outside 0..255.
     */
    method GetRgbaChunk() returns (r: Result<Chunk, WriteError>)
      ensures r.Success? <==> PaletteFits(colors)
      ensures r.Success? ==> r.value == RgbaChunk(colors)
    {
      var content: seq<byte> := [];
      for i := 0 to 256
        invariant forall p :: 0 <= p < i ==> ByteRgba(RgbaEntry(colors, p))
        invariant |content| == 4 * i
        invariant forall j :: 0 <= j < 4 * i ==> content[j] == PackRgba(RgbaEntry(colors, j / 4))[j % 4]
      {
        var e := if i + 1 < |colors| then colors[i + 1] else Rgba(0, 0, 0, 255);
        assert e == RgbaEntry(colors, i);
        if !ByteRgba(e) {
          return Failure(StructError);
        }
        content := content + [e.r, e.g, e.b, e.a];
      }
      r := Success(Chunk("RGBA", content, []));
    }
  }

  /** The data of each model, in order. */
  function DataOf(ms: seq<VoxModel>): (ds: seq<Model>)
    reads ms
    ensures |ds| == |ms|
    ensures forall i :: 0 <= i < |ms| ==> ds[i] == ms[i].Data()
  {
    seq(|ms|, i reads ms requires 0 <= i < |ms| => ms[i].Data())
  }

  /** VoxWriter: the models of one file and its palette. */
  class VoxWriter {
    var models: seq<VoxModel>
    var palette: VoxPalette

    ghost predicate Valid()
      reads this, palette, models
    {
      palette.Valid() && forall i :: 0 <= i < |models| ==> models[i].Valid()
    }

    constructor ()
      ensures Valid()
      ensures models == [] && fresh(palette)
      ensures palette.colors == DefaultPalette()
    {
      models := [];
      palette := new VoxPalette();
    }

    method AddModel(m: VoxModel)
      requires Valid() && m.Valid()
      modifies this
      ensures Valid()
      ensures models == old(models) + [m] && palette == old(palette)
    {
      models := models + [m];
    }

    /** The SIZE and XYZI chunks write appends for each model in turn, or struct.error. */
    method ModelsChunksBytes() returns (r: Result<seq<byte>, WriteError>)
      requires Valid()
      ensures r.Success? <==> AllFit(DataOf(models))
      ensures r.Success? ==> r.value == ModelsBytes(DataOf(models))
    {
      ghost var ms := DataOf(models);
      var bytes: seq<byte> := [];
      for i := 0 to |models|
        invariant AllFit(ms[..i])
        invariant bytes == ModelsBytes(ms[..i])
      {
        assert ms[i] == models[i].Data();
        var chunks := models[i].GetChunksBytes();
        if chunks.Failure? {
          return Failure(StructError);
        }
        bytes := bytes + chunks.value;
        ModelsBytesStep(ms, i);
      }
      assert ms[..|models|] == ms;
      r := Success(bytes);
    }

    /**
     * write: the header, then the MAIN chunk whose children are the PACK
     * chunk when there is more than one model, SIZE and XYZI per model, and
     * RGBA. The result is the file's bytes, or struct.error when some value
     * does not fit its format.
     */
    method Write() returns (r: Result<seq<byte>, WriteError>)
      requires Valid()
      ensures r == WriteResult(DataOf(models), palette.colors)
    {
      if !IsU32(|models|) {
        return Failure(StructError);
      }
      var modelBytes := ModelsChunksBytes();
      if modelBytes.Failure? {
        return Failure(StructError);
      }
      var rgba := palette.GetRgbaChunk();
      if rgba.Failure? {
        return Failure(StructError);
      }
      var children := PackBytes(|models|) + modelBytes.value + ChunkBytes(rgba.value);
      if !IsU32(|children|) {
        return Failure(StructError);
      }
      r := Success(FileAround(children));
    }
  }

  /** writer.add_model(model) then writer.write on a writer without models. */
  method WriteModel(writer: VoxWriter, model: VoxModel) returns (r: Result<seq<byte>, WriteError>)
    requires writer.Valid() && model.Valid() && writer.models == []
    modifies writer
    ensures r == WriteResult([model.Data()], writer.palette.colors)
    ensures writer.palette == old(writer.palette)
  {
    writer.AddModel(model);
    assert DataOf(writer.models) == [model.Data()];
    r := writer.Write();
  }
}
