/**
 * read_vox_scene after the chunk scan, read_vox_file and get_voxel_color:
 * the model pass (SIZE, XYZI, RGBA), the scene-graph pass (nTRN, nSHP),
 * the instances built from them, and the legacy single-model view.
 */
module Scene {
  import opened Wrappers
  import opened Bytes
  import opened Text
  import opened Voxels
  import opened Reader

  /** The magic "VOX " every file starts with. */
  const MAGIC: seq<byte> := [86, 79, 88, 32]

  // ---------------------------------------------------------------------
  // The model pass: SIZE, XYZI and RGBA chunks

  /** struct.unpack('<III', content[:12]) succeeds: at least 12 bytes. */
  predicate SizeReadable(content: seq<byte>) {
    |content| >= 12
  }

  /** A SIZE chunk's (size_x, size_y, size_z). */
  function SizeOf(content: seq<byte>): (int, int, int)
    requires SizeReadable(content)
  {
    (U32At(content, 0).value, U32At(content, 4).value, U32At(content, 8).value)
  }

  /** An XYZI chunk holds its count and four bytes per voxel it announces. */
  predicate XyziReadable(content: seq<byte>) {
    4 <= |content| && 4 + 4 * U32At(content, 0).value <= |content|
  }

  /** The voxel record at 4 + 4i: (x, y, z, color_index), one byte each. */
  function VoxelAt(content: seq<byte>, i: nat): Voxel
    requires 4 + 4 * i + 4 <= |content|
  {
    var o := 4 + 4 * i;
    Voxel(content[o], content[o + 1], content[o + 2], content[o + 3])
  }

  /** An XYZI chunk's voxels, in file order. */
  function VoxelsOf(content: seq<byte>): (vs: seq<Voxel>)
    requires XyziReadable(content)
    ensures |vs| == U32At(content, 0).value
  {
    var n := U32At(content, 0).value;
    seq(n, i requires 0 <= i < n => VoxelAt(content, i))
  }

  /** Every one of the 256 palette records of an RGBA chunk is present. */
  predicate RgbaReadable(content: seq<byte>) {
    |content| >= 1024
  }

  /** The palette record at 4i: (r, g, b, a). */
  function RgbaAt(content: seq<byte>, i: nat): Rgba
    requires 4 * i + 4 <= |content|
  {
    Rgba(content[4 * i], content[4 * i + 1], content[4 * i + 2], content[4 * i + 3])
  }

  /** An RGBA chunk's palette: 256 entries in file order. */
  function PaletteOf(content: seq<byte>): (p: seq<Rgba>)
    requires RgbaReadable(content)
    ensures |p| == 256
  {
    seq(256, i requires 0 <= i < 256 => RgbaAt(content, i))
  }

  /** What the model pass can unpack without a struct.error. Other chunk ids are not looked at. */
  predicate Readable(c: RawChunk) {
    && (c.id == "SIZE" ==> SizeReadable(c.content))
    && (c.id == "XYZI" ==> XyziReadable(c.content))
    && (c.id == "RGBA" ==> RgbaReadable(c.content))
  }

  predicate AllReadable(cs: seq<RawChunk>) {
    forall i :: 0 <= i < |cs| ==> Readable(cs[i])
  }

  /** The model pass's variables: current_size, models and palette. */
  datatype ModelPass = ModelPass(size: Option<(int, int, int)>, models: seq<Model>, palette: seq<Rgba>)

  /** The model of an XYZI chunk read while `size` is current. */
  function Sized(size: (int, int, int), voxels: seq<Voxel>): Model {
    Model(size.0, size.1, size.2, voxels)
  }

  /** One chunk of the model pass. */
  function ModelStep(st: ModelPass, c: RawChunk): ModelPass
    requires Readable(c)
  {
    if c.id == "SIZE" then st.(size := Some(SizeOf(c.content)))
    else if c.id == "XYZI" then
      if st.size.Some? then st.(models := st.models + [Sized(st.size.value, VoxelsOf(c.content))]) else st
    else if c.id == "RGBA" then st.(palette := PaletteOf(c.content))
    else st
  }

  /** The model pass over the chunks cs, starting with no size, no models and the palette `defaults`. */
  function ModelsUpTo(cs: seq<RawChunk>, defaults: seq<Rgba>): ModelPass
    requires AllReadable(cs)
  {
    if cs == [] then ModelPass(None, [], defaults)
    else
      var n := |cs| - 1;
      assert AllReadable(cs[..n]) by {
        forall i | 0 <= i < n
          ensures Readable(cs[..n][i])
        {
          assert cs[..n][i] == cs[i];
        }
      }
      ModelStep(ModelsUpTo(cs[..n], defaults), cs[n])
  }

  /** The prefix cs[..j] of readable chunks is readable. */
  lemma PrefixReadable(cs: seq<RawChunk>, j: int)
    requires AllReadable(cs) && 0 <= j <= |cs|
    ensures AllReadable(cs[..j])
  {
    forall i | 0 <= i < j
      ensures Readable(cs[..j][i])
    {
      assert cs[..j][i] == cs[i];
    }
  }

  /** The model pass after one more chunk is one more step. */
  lemma ModelsUpToNext(cs: seq<RawChunk>, j: int, d: seq<Rgba>)
    requires AllReadable(cs) && 0 <= j < |cs|
    ensures AllReadable(cs[..j]) && AllReadable(cs[..j + 1])
    ensures ModelsUpTo(cs[..j + 1], d) == ModelStep(ModelsUpTo(cs[..j], d), cs[j])
  {
    PrefixReadable(cs, j);
    PrefixReadable(cs, j + 1);
    assert cs[..j + 1][..j] == cs[..j];
  }

  /**
   * The model pass, from get_default_palette() on; it fails (struct.error)
   * exactly when some chunk cannot be unpacked.
   */
  function ModelsOf(cs: seq<RawChunk>): Result<ModelPass, ReadError> {
    if AllReadable(cs) then Success(ModelsUpTo(cs, DefaultPalette())) else Failure(Truncated)
  }

  /** Unpacking a SIZE chunk. */
  method ReadSize(content: seq<byte>) returns (r: Result<(int, int, int), ReadError>)
    ensures r.Success? <==> SizeReadable(content)
    ensures r.Success? ==> r.value == SizeOf(content)
  {
    if |content| < 12 {
      return Failure(Truncated);
    }
    var head := content[..12];
    assert head[0..4] == content[0..4] && head[4..8] == content[4..8] && head[8..12] == content[8..12];
    r := Success((U32Of(head[0..4]), U32Of(head[4..8]), U32Of(head[8..12])));
  }

  /** Unpacking an XYZI chunk: the count, then one record per voxel, failing at the first record cut short. */
  method ReadXyzi(content: seq<byte>) returns (r: Result<seq<Voxel>, ReadError>)
    ensures r.Success? <==> XyziReadable(content)
    ensures r.Success? ==> r.value == VoxelsOf(content)
  {
    var count := U32At(content, 0);
    if count.None? {
      return Failure(Truncated);
    }
    var n := count.value;
    var voxels: seq<Voxel> := [];
    for i := 0 to n
      invariant 4 + 4 * i <= |content|
      invariant |voxels| == i
      invariant forall j :: 0 <= j < i ==> voxels[j] == VoxelAt(content, j)
    {
      var offset := 4 + i * 4;
      if offset + 4 > |content| {
        return Failure(Truncated);
      }
      var q := content[offset..offset + 4];
      voxels := voxels + [Voxel(q[0], q[1], q[2], q[3])];
    }
    return Success(voxels);
  }

  /** Unpacking an RGBA chunk: 256 records, failing at the first record cut short. */
  method ReadRgba(content: seq<byte>) returns (r: Result<seq<Rgba>, ReadError>)
    ensures r.Success? <==> RgbaReadable(content)
    ensures r.Success? ==> r.value == PaletteOf(content)
  {
    var palette: seq<Rgba> := [];
    for i := 0 to 256
      invariant 4 * i <= |content|
      invariant |palette| == i
      invariant forall j :: 0 <= j < i ==> palette[j] == RgbaAt(content, j)
    {
      var offset := i * 4;
      if offset + 4 > |content| {
        return Failure(Truncated);
      }
      var q := content[offset..offset + 4];
      palette := palette + [Rgba(q[0], q[1], q[2], q[3])];
    }
    return Success(palette);
  }

  /** One pass of the model loop over chunk c. */
  method StepModels(st: ModelPass, c: RawChunk) returns (r: Result<ModelPass, ReadError>)
    ensures r.Success? <==> Readable(c)
    ensures r.Success? ==> r.value == ModelStep(st, c)
  {
    r := Success(st);
    if c.id == "SIZE" {
      var size := ReadSize(c.content);
      if size.Failure? {
        return Failure(Truncated);
      }
      r := Success(st.(size := Some(size.value)));
    } else if c.id == "XYZI" {
      var voxels := ReadXyzi(c.content);
      if voxels.Failure? {
        return Failure(Truncated);
      }
      if st.size.Some? {
        r := Success(st.(models := st.models + [Sized(st.size.value, voxels.value)]));
      }
    } else if c.id == "RGBA" {
      var palette := ReadRgba(c.content);
      if palette.Failure? {
        return Failure(Truncated);
      }
      r := Success(st.(palette := palette.value));
    }
  }

  /** read_vox_scene's model loop: current_size, models and palette threaded through the chunks. */
  method ReadModels(chunks: seq<RawChunk>) returns (r: Result<ModelPass, ReadError>)
    ensures r == ModelsOf(chunks)
  {
    var defaults := DecodeDefaultTable();
    var st := ModelPass(None, [], defaults);
    for i := 0 to |chunks|
      invariant AllReadable(chunks[..i])
      invariant st == ModelsUpTo(chunks[..i], defaults)
    {
      var next := StepModels(st, chunks[i]);
      if next.Failure? {
        return Failure(Truncated);
      }
      PrefixGrows(chunks, i, defaults);
      st := next.value;
    }
    assert chunks[..|chunks|] == chunks;
    return Success(st);
  }

  /** A readable prefix followed by a readable chunk is a readable prefix one longer. */
  lemma PrefixGrows(cs: seq<RawChunk>, i: int, d: seq<Rgba>)
    requires 0 <= i < |cs| && AllReadable(cs[..i]) && Readable(cs[i])
    ensures AllReadable(cs[..i + 1])
    ensures ModelsUpTo(cs[..i + 1], d) == ModelStep(ModelsUpTo(cs[..i], d), cs[i])
  {
    var p := cs[..i + 1];
    assert p[..i] == cs[..i];
    forall j | 0 <= j < i + 1
      ensures Readable(p[j])
    {
      if j < i {
        assert p[j] == cs[..i][j];
      }
    }
  }

  // ---------------------------------------------------------------------
  // Properties of the model pass

  /** The prefix without the last chunk, with its chunks at the same indices. */
  lemma DropLast(cs: seq<RawChunk>)
    requires AllReadable(cs) && cs != []
    ensures AllReadable(cs[..|cs| - 1])
    ensures forall j :: 0 <= j < |cs| - 1 ==> cs[..|cs| - 1][j] == cs[j]
  {
    PrefixReadable(cs, |cs| - 1);
  }

  /** current_size is the size of the last SIZE chunk. */
  lemma {:induction false} LatestSize(cs: seq<RawChunk>, d: seq<Rgba>, i: int)
    requires AllReadable(cs) && 0 <= i < |cs| && cs[i].id == "SIZE"
    requires forall j :: i < j < |cs| ==> cs[j].id != "SIZE"
    ensures ModelsUpTo(cs, d).size == Some(SizeOf(cs[i].content))
    decreases |cs|
  {
    var n := |cs| - 1;
    DropLast(cs);
    if i < n {
      LatestSize(cs[..n], d, i);
    }
  }

  /** Before any SIZE chunk there is no current size, and every XYZI chunk is dropped. */
  lemma {:induction false} NoSizeYet(cs: seq<RawChunk>, d: seq<Rgba>)
    requires AllReadable(cs)
    requires forall j :: 0 <= j < |cs| ==> cs[j].id != "SIZE"
    ensures ModelsUpTo(cs, d).size == None
    ensures ModelsUpTo(cs, d).models == []
    decreases |cs|
  {
    if cs != [] {
      DropLast(cs);
      NoSizeYet(cs[..|cs| - 1], d);
    }
  }

  /** A current size is the size some SIZE chunk holds. */
  lemma {:induction false} SizeSource(cs: seq<RawChunk>, d: seq<Rgba>)
    requires AllReadable(cs) && ModelsUpTo(cs, d).size.Some?
    ensures exists j :: 0 <= j < |cs| && cs[j].id == "SIZE" && SizeReadable(cs[j].content)
                        && ModelsUpTo(cs, d).size.value == SizeOf(cs[j].content)
    decreases |cs|
  {
    var n := |cs| - 1;
    DropLast(cs);
    if cs[n].id != "SIZE" {
      SizeSource(cs[..n], d);
    }
  }

  /**
   * Every model is the voxels of some XYZI chunk, with the size of a SIZE
   * chunk that comes before it.
   */
  lemma {:induction false} ModelOrigin(cs: seq<RawChunk>, d: seq<Rgba>, k: int)
    requires AllReadable(cs) && 0 <= k < |ModelsUpTo(cs, d).models|
    ensures exists i, j :: 0 <= j < i < |cs| && cs[i].id == "XYZI" && cs[j].id == "SIZE"
                           && XyziReadable(cs[i].content) && SizeReadable(cs[j].content)
                           && ModelsUpTo(cs, d).models[k] == Sized(SizeOf(cs[j].content), VoxelsOf(cs[i].content))
    decreases |cs|
  {
    var n := |cs| - 1;
    DropLast(cs);
    var st := ModelsUpTo(cs[..n], d);
    if k < |st.models| {
      ModelOrigin(cs[..n], d, k);
    } else {
      SizeSource(cs[..n], d);
    }
  }

  /** The palette is the last RGBA chunk's. */
  lemma {:induction false} LatestPalette(cs: seq<RawChunk>, d: seq<Rgba>, i: int)
    requires AllReadable(cs) && 0 <= i < |cs| && cs[i].id == "RGBA"
    requires forall j :: i < j < |cs| ==> cs[j].id != "RGBA"
    ensures ModelsUpTo(cs, d).palette == PaletteOf(cs[i].content)
    decreases |cs|
  {
    var n := |cs| - 1;
    DropLast(cs);
    if i < n {
      LatestPalette(cs[..n], d, i);
    }
  }

  /** Without an RGBA chunk the palette stays the default one. */
  lemma {:induction false} NoPaletteYet(cs: seq<RawChunk>, d: seq<Rgba>)
    requires AllReadable(cs)
    requires forall j :: 0 <= j < |cs| ==> cs[j].id != "RGBA"
    ensures ModelsUpTo(cs, d).palette == d
    decreases |cs|
  {
    if cs != [] {
      DropLast(cs);
      NoPaletteYet(cs[..|cs| - 1], d);
    }
  }

  /** The palette always has 256 entries. */
  lemma {:induction false} PaletteSize(cs: seq<RawChunk>, d: seq<Rgba>)
    requires AllReadable(cs) && |d| == 256
    ensures |ModelsUpTo(cs, d).palette| == 256
    decreases |cs|
  {
    if cs != [] {
      DropLast(cs);
      PaletteSize(cs[..|cs| - 1], d);
    }
  }
}
