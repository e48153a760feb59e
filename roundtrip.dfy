/**
 * What the reader makes of the writer's output: the chunk scan of a written
 * file sees MAIN and then MAIN's children one after another, the model pass
 * gives back the written models, and the palette is the written palette
 * shifted down by one slot.
 */
module RoundTrip {
  import opened Wrappers
  import opened Bytes
  import opened Voxels
  import opened Reader
  import opened Scene
  import opened Graph
  import opened Writer
  import opened ReadVox

  /** A chunk as the reader's scan sees it: its id and its content. */
  function Raw(c: Chunk): RawChunk {
    RawChunk(c.id, c.content)
  }

  /** A chunk write puts inside MAIN: one of its ids, and no children of its own. */
  predicate Leaf(c: Chunk) {
    && Packable(c)
    && c.children == []
    && (c.id == "PACK" || c.id == "SIZE" || c.id == "XYZI" || c.id == "RGBA")
  }

  predicate AllLeaves(cs: seq<Chunk>) {
    forall i :: 0 <= i < |cs| ==> Leaf(cs[i])
  }

  /** The chunks' bytes, one after another. */
  function ChunksBytes(cs: seq<Chunk>): seq<byte>
    requires AllLeaves(cs)
  {
    if cs == [] then [] else ChunkBytes(cs[0]) + ChunksBytes(cs[1..])
  }

  function Raws(cs: seq<Chunk>): (r: seq<RawChunk>)
    ensures |r| == |cs|
  {
    if cs == [] then [] else [Raw(cs[0])] + Raws(cs[1..])
  }

  function PackChunks(n: int): (r: seq<Chunk>)
    requires IsU32(n)
    ensures AllLeaves(r)
  {
    if n > 1 then [PackChunk(n)] else []
  }

  /** SIZE then XYZI for each model, in model order. */
  function ModelChunks(ms: seq<Model>): (r: seq<Chunk>)
    requires AllFit(ms)
    ensures AllLeaves(r)
    ensures |r| == 2 * |ms|
  {
    if ms == [] then []
    else
      var m := ms[|ms| - 1];
      ModelChunks(ms[..|ms| - 1]) + [SizeChunk(m), XyziChunk(m)]
  }

  /** MAIN's children as write emits them. */
  function FileChunks(ms: seq<Model>, colors: seq<Rgba>): (r: seq<Chunk>)
    requires AllFit(ms) && IsU32(|ms|) && PaletteFits(colors)
    ensures AllLeaves(r)
  {
    PackChunks(|ms|) + ModelChunks(ms) + [RgbaChunk(colors)]
  }

  // ---------------------------------------------------------------------
  // Byte layout

  lemma {:induction false} ChunksBytesAppend(a: seq<Chunk>, b: seq<Chunk>)
    requires AllLeaves(a) && AllLeaves(b)
    ensures AllLeaves(a + b)
    ensures ChunksBytes(a + b) == ChunksBytes(a) + ChunksBytes(b)
    decreases |a|
  {
    if a == [] {
      assert a + b == b;
    } else {
      assert (a + b)[0] == a[0];
      assert (a + b)[1..] == a[1..] + b;
      ChunksBytesAppend(a[1..], b);
    }
  }

  lemma {:induction false} RawsAppend(a: seq<Chunk>, b: seq<Chunk>)
    ensures Raws(a + b) == Raws(a) + Raws(b)
    decreases |a|
  {
    if a == [] {
      assert a + b == b;
    } else {
      assert (a + b)[0] == a[0];
      assert (a + b)[1..] == a[1..] + b;
      RawsAppend(a[1..], b);
    }
  }

  lemma ChunksPair(a: Chunk, b: Chunk)
    requires Leaf(a) && Leaf(b)
    ensures ChunksBytes([a, b]) == ChunkBytes(a) + ChunkBytes(b)
  {
    assert [a, b][0] == a && [a, b][1..] == [b];
    assert [b][0] == b && [b][1..] == [];
    assert ChunksBytes([b]) == ChunkBytes(b) + [];
  }

  /** The SIZE and XYZI chunks write emits for the models are the chunks of ModelChunks. */
  lemma {:induction false} ModelsAsChunks(ms: seq<Model>)
    requires AllFit(ms)
    ensures ModelsBytes(ms) == ChunksBytes(ModelChunks(ms))
  {
    if ms != [] {
      var n := |ms| - 1;
      var m := ms[n];
      ModelsAsChunks(ms[..n]);
      assert ModelChunks(ms) == ModelChunks(ms[..n]) + [SizeChunk(m), XyziChunk(m)];
      ChunksBytesAppend(ModelChunks(ms[..n]), [SizeChunk(m), XyziChunk(m)]);
      ChunksPair(SizeChunk(m), XyziChunk(m));
    }
  }

  /** MAIN's children bytes are the bytes of FileChunks. */
  lemma ChildrenAsChunks(ms: seq<Model>, colors: seq<Rgba>)
    requires Encodable(ms, colors)
    ensures MainChildrenBytes(ms, colors) == ChunksBytes(FileChunks(ms, colors))
  {
    var p, mc, r := PackChunks(|ms|), ModelChunks(ms), [RgbaChunk(colors)];
    ModelsAsChunks(ms);
    ChunksBytesAppend(p, mc);
    ChunksBytesAppend(p + mc, r);
    assert ChunksBytes(r) == ChunkBytes(RgbaChunk(colors));
  }

  // ---------------------------------------------------------------------
  // The chunk scan over written chunks

  /** A chunk's bytes at pos are read back as its id and content, and the scan moves past its content. */
  lemma ChunkHeaderAt(data: seq<byte>, pos: nat, c: Chunk)
    requires Packable(c) && |c.id| == 4
    requires pos + |ChunkBytes(c)| <= |data| && data[pos..pos + |ChunkBytes(c)|] == ChunkBytes(c)
    ensures pos + 12 <= |data|
    ensures ChunkAt(data, pos) == Raw(c)
    ensures ChunkEnd(data, pos) == pos + 12 + |c.content|
  {
    var w := ChunkBytes(c);
    ChunkLayout(c);
    SubSlice(data, pos, w, 0, 4);
    SubSlice(data, pos, w, 4, 8);
    SubSlice(data, pos, w, 12, 12 + |c.content|);
    assert U32At(data, pos + 4) == U32At(w, 4);
    assert w[..4] == w[0..4];
    AsciiRoundTrip(c.id);
  }

  /** One step of the scan. */
  lemma ScanStep(data: seq<byte>, pos: nat)
    requires pos + 12 <= |data|
    ensures ScanFrom(data, pos) == [ChunkAt(data, pos)] + ScanFrom(data, ChunkEnd(data, pos))
  {
  }

  /** A leaf chunk's bytes at the front of data[pos..]: the first chunk scanned, and where the rest starts. */
  lemma LeafAt(data: seq<byte>, pos: nat, c: Chunk, rest: seq<byte>)
    requires Leaf(c) && pos <= |data| && data[pos..] == ChunkBytes(c) + rest
    ensures pos + 12 <= |data|
    ensures ChunkAt(data, pos) == Raw(c)
    ensures ChunkEnd(data, pos) == pos + |ChunkBytes(c)|
    ensures data[ChunkEnd(data, pos)..] == rest
  {
    var w := ChunkBytes(c);
    assert data[pos..pos + |w|] == w by {
      assert data[pos..][..|w|] == data[pos..pos + |w|];
    }
    ChunkHeaderAt(data, pos, c);
    assert data[pos + |w|..] == rest by {
      assert data[pos..][|w|..] == data[pos + |w|..];
    }
  }

  /** The scan from pos over the bytes of leaf chunks sees exactly those chunks. */
  lemma {:induction false} ScanLeaves(data: seq<byte>, pos: nat, cs: seq<Chunk>)
    requires AllLeaves(cs) && pos <= |data| && data[pos..] == ChunksBytes(cs)
    ensures ScanFrom(data, pos) == Raws(cs)
    decreases |cs|
  {
    if cs == [] {
      assert |data[pos..]| == 0;
    } else {
      LeafAt(data, pos, cs[0], ChunksBytes(cs[1..]));
      ScanStep(data, pos);
      ScanLeaves(data, ChunkEnd(data, pos), cs[1..]);
    }
  }

  /** Past the magic and the version, a written file holds the MAIN chunk. */
  lemma FileMain(children: seq<byte>)
    requires IsU32(|children|)
    ensures FileAround(children)[8..] == ChunkBytes(Chunk("MAIN", [], children))
  {
    var w := ChunkBytes(Chunk("MAIN", [], children));
    assert FileAround(children) == (AsciiEncode("VOX ") + U32LE(VOX_VERSION)) + w;
  }

  /** A chunk without content at 8 is scanned, and the scan goes on into its children at 20. */
  lemma MainAt(data: seq<byte>, c: Chunk)
    requires Packable(c) && |c.id| == 4 && c.content == []
    requires 8 <= |data| && data[8..] == ChunkBytes(c)
    ensures ScanFrom(data, 8) == [Raw(c)] + ScanFrom(data, 20)
    ensures data[20..] == c.children
  {
    var w := ChunkBytes(c);
    assert data[8..8 + |w|] == w by {
      assert data[8..][..|w|] == data[8..8 + |w|];
    }
    ChunkHeaderAt(data, 8, c);
    ScanStep(data, 8);
    ChunkLayout(c);
    assert data[20..] == w[12..] by {
      assert data[8..][12..] == data[20..];
    }
  }

  /** The scan of a written file: MAIN with no content, then MAIN's children as following chunks. */
  lemma ScanFile(ms: seq<Model>, colors: seq<Rgba>)
    requires Encodable(ms, colors)
    ensures ScanFrom(FileBytes(ms, colors), 8) == [RawChunk("MAIN", [])] + Raws(FileChunks(ms, colors))
  {
    var children := MainChildrenBytes(ms, colors);
    var data := FileBytes(ms, colors);
    FileMain(children);
    MainAt(data, Chunk("MAIN", [], children));
    ChildrenAsChunks(ms, colors);
    ScanLeaves(data, 20, FileChunks(ms, colors));
  }

  // ---------------------------------------------------------------------
  // The payloads read back

  lemma SizeRoundTrip(m: Model)
    requires SizeFits(m)
    ensures SizeReadable(SizeChunk(m).content)
    ensures SizeOf(SizeChunk(m).content) == (m.sizeX, m.sizeY, m.sizeZ)
  {
    var x, y, z := U32LE(m.sizeX), U32LE(m.sizeY), U32LE(m.sizeZ);
    U32AtEncoded([], m.sizeX, y + z);
    U32AtEncoded(x, m.sizeY, z);
    U32AtEncoded(x + y, m.sizeZ, []);
    assert SizeChunk(m).content == [] + x + (y + z) == x + y + z + [];
  }

  /** A 2x2x2 model with the one voxel (0, 0, 0, 1), byte for byte. */
  lemma SmallModelBytes()
    ensures SizeChunk(Model(2, 2, 2, [Voxel(0, 0, 0, 1)])).content == [2, 0, 0, 0, 2, 0, 0, 0, 2, 0, 0, 0]
    ensures XyziChunk(Model(2, 2, 2, [Voxel(0, 0, 0, 1)])).content == [1, 0, 0, 0, 0, 0, 0, 1]
  {
    assert VoxelsBytes([Voxel(0, 0, 0, 1)]) == PackVoxel(Voxel(0, 0, 0, 1)) + VoxelsBytes([]);
  }

  /** Voxel record i of a written XYZI chunk is voxel i. */
  lemma XyziRecord(m: Model, i: int)
    requires XyziFits(m) && 0 <= i < |m.voxels|
    ensures 4 + 4 * i + 4 <= |XyziChunk(m).content|
    ensures VoxelAt(XyziChunk(m).content, i) == m.voxels[i]
  {
    var records := VoxelsBytes(m.voxels);
    var content := XyziChunk(m).content;
    forall k | 0 <= k < 4
      ensures content[4 + 4 * i + k] == PackVoxel(m.voxels[i])[k]
    {
      assert content[4 + 4 * i + k] == records[4 * i + k];
      assert (4 * i + k) / 4 == i && (4 * i + k) % 4 == k;
    }
  }

  lemma XyziRoundTrip(m: Model)
    requires XyziFits(m)
    ensures XyziReadable(XyziChunk(m).content)
    ensures VoxelsOf(XyziChunk(m).content) == m.voxels
  {
    var content := XyziChunk(m).content;
    U32AtEncoded([], |m.voxels|, VoxelsBytes(m.voxels));
    assert content == [] + U32LE(|m.voxels|) + VoxelsBytes(m.voxels);
    forall i | 0 <= i < |m.voxels|
      ensures VoxelsOf(content)[i] == m.voxels[i]
    {
      XyziRecord(m, i);
    }
  }

  lemma RgbaRoundTrip(colors: seq<Rgba>, p: int)
    requires 0 <= p < 256 && PaletteFits(colors)
    ensures RgbaReadable(RgbaContent(colors))
    ensures PaletteOf(RgbaContent(colors))[p] == RgbaEntry(colors, p)
  {
    var content := RgbaContent(colors);
    forall k | 0 <= k < 4
      ensures content[4 * p + k] == PackRgba(RgbaEntry(colors, p))[k]
    {
      assert (4 * p + k) / 4 == p && (4 * p + k) % 4 == k;
    }
  }

  // ---------------------------------------------------------------------
  // The model pass over written chunks

  /** The model pass over one more chunk is one more step. */
  lemma SnocPass(p: seq<RawChunk>, c: RawChunk, d: seq<Rgba>)
    requires AllReadable(p) && Readable(c)
    ensures AllReadable(p + [c])
    ensures ModelsUpTo(p + [c], d) == ModelStep(ModelsUpTo(p, d), c)
  {
    var cs := p + [c];
    assert cs[..|p|] == p && cs[..|p| + 1] == cs;
    PrefixGrows(cs, |p|, d);
  }

  /** Raws of a sequence grown by two chunks is grown by their two raw chunks. */
  lemma RawsSnoc2(h: seq<RawChunk>, cs: seq<Chunk>, a: Chunk, b: Chunk)
    ensures h + Raws(cs + [a, b]) == h + Raws(cs) + [Raw(a)] + [Raw(b)]
  {
    RawsAppend(cs, [a, b]);
    assert [a, b][0] == a && [a, b][1..] == [b];
    assert [b][0] == b && [b][1..] == [];
    assert Raws([b]) == [Raw(b)] + [];
  }

  lemma ModelChunksSnoc(ms: seq<Model>)
    requires AllFit(ms) && ms != []
    ensures AllFit(ms[..|ms| - 1])
    ensures ModelChunks(ms) == ModelChunks(ms[..|ms| - 1]) + [SizeChunk(ms[|ms| - 1]), XyziChunk(ms[|ms| - 1])]
  {
  }

  /** A model's SIZE and XYZI chunks add that model to the pass and leave the palette alone. */
  lemma ModelPair(p: seq<RawChunk>, m: Model, d: seq<Rgba>)
    requires AllReadable(p) && ModelFits(m)
    ensures AllReadable(p + [Raw(SizeChunk(m))] + [Raw(XyziChunk(m))])
    ensures ModelsUpTo(p + [Raw(SizeChunk(m))] + [Raw(XyziChunk(m))], d).models == ModelsUpTo(p, d).models + [m]
    ensures ModelsUpTo(p + [Raw(SizeChunk(m))] + [Raw(XyziChunk(m))], d).palette == ModelsUpTo(p, d).palette
  {
    var s, x := Raw(SizeChunk(m)), Raw(XyziChunk(m));
    SizeRoundTrip(m);
    XyziRoundTrip(m);
    SnocPass(p, s, d);
    SnocPass(p + [s], x, d);
  }

  /** After the SIZE and XYZI chunks of the models, the model pass holds exactly those models. */
  lemma {:induction false} ModelsWritten(h: seq<RawChunk>, ms: seq<Model>, d: seq<Rgba>)
    requires AllReadable(h) && ModelsUpTo(h, d) == ModelPass(None, [], d)
    requires AllFit(ms)
    ensures AllReadable(h + Raws(ModelChunks(ms)))
    ensures ModelsUpTo(h + Raws(ModelChunks(ms)), d).models == ms
    ensures ModelsUpTo(h + Raws(ModelChunks(ms)), d).palette == d
  {
    if ms == [] {
      assert h + Raws([]) == h;
    } else {
      var n := |ms| - 1;
      var m := ms[n];
      ModelChunksSnoc(ms);
      ModelsWritten(h, ms[..n], d);
      RawsSnoc2(h, ModelChunks(ms[..n]), SizeChunk(m), XyziChunk(m));
      ModelPair(h + Raws(ModelChunks(ms[..n])), m, d);
      assert ms[..n] + [m] == ms;
    }
  }

  /** MAIN and PACK leave the model pass where it started. */
  lemma HeadPass(ms: seq<Model>, d: seq<Rgba>)
    requires IsU32(|ms|)
    ensures AllReadable([RawChunk("MAIN", [])] + Raws(PackChunks(|ms|)))
    ensures ModelsUpTo([RawChunk("MAIN", [])] + Raws(PackChunks(|ms|)), d) == ModelPass(None, [], d)
  {
    var h := [RawChunk("MAIN", [])] + Raws(PackChunks(|ms|));
    assert forall i :: 0 <= i < |h| ==> h[i].id == "MAIN" || h[i].id == "PACK";
    NoSizeYet(h, d);
    NoPaletteYet(h, d);
  }

  /** The graph pass ignores written chunks: a written file has no scene graph. */
  lemma {:induction false} GraphSkips(g: Graph, cs: seq<Chunk>)
    requires AllLeaves(cs)
    ensures GraphFrom(g, Raws(cs)) == Success(g)
    decreases |cs|
  {
    if cs != [] {
      GraphSkips(g, cs[1..]);
    }
  }

  // ---------------------------------------------------------------------
  // The round trip

  /** The chunks of a written file, split where the model pass needs them. */
  lemma FileRaws(p: seq<Chunk>, mc: seq<Chunk>, rgba: Chunk)
    ensures [RawChunk("MAIN", [])] + Raws(p + mc + [rgba])
         == [RawChunk("MAIN", [])] + Raws(p) + Raws(mc) + [Raw(rgba)]
  {
    RawsAppend3(p, mc, rgba);
    var m, rp, rmc, rr := [RawChunk("MAIN", [])], Raws(p), Raws(mc), [Raw(rgba)];
    assert m + (rp + rmc + rr) == m + rp + rmc + rr;
  }

  lemma RawsAppend3(a: seq<Chunk>, b: seq<Chunk>, c: Chunk)
    ensures Raws(a + b + [c]) == Raws(a) + Raws(b) + [Raw(c)]
  {
    RawsAppend(a, b);
    RawsAppend(a + b, [c]);
    assert [c][0] == c && [c][1..] == [];
  }

  /** The model pass over a written file: the written models and the RGBA chunk's palette. */
  lemma ModelsOfFile(ms: seq<Model>, colors: seq<Rgba>)
    requires AllFit(ms) && IsU32(|ms|) && PaletteFits(colors)
    ensures ModelsOf([RawChunk("MAIN", [])] + Raws(FileChunks(ms, colors))).Success?
    ensures ModelsOf([RawChunk("MAIN", [])] + Raws(FileChunks(ms, colors))).value.models == ms
    ensures ModelsOf([RawChunk("MAIN", [])] + Raws(FileChunks(ms, colors))).value.palette == PaletteOf(RgbaContent(colors))
  {
    var d := DefaultPalette();
    var h := [RawChunk("MAIN", [])] + Raws(PackChunks(|ms|));
    var body := h + Raws(ModelChunks(ms));
    FileRaws(PackChunks(|ms|), ModelChunks(ms), RgbaChunk(colors));
    HeadPass(ms, d);
    ModelsWritten(h, ms, d);
    SnocPass(body, Raw(RgbaChunk(colors)), d);
  }

  /** The graph pass over a written file finds no scene graph. */
  lemma GraphOfFile(ms: seq<Model>, colors: seq<Rgba>)
    requires AllFit(ms) && IsU32(|ms|) && PaletteFits(colors)
    ensures GraphOf([RawChunk("MAIN", [])] + Raws(FileChunks(ms, colors))) == Success(Graph([], []))
  {
    var cs := [RawChunk("MAIN", [])] + Raws(FileChunks(ms, colors));
    assert cs[1..] == Raws(FileChunks(ms, colors));
    GraphSkips(Graph([], []), FileChunks(ms, colors));
  }

  /** A file with the magic and the version word: the scene is put together from the two passes. */
  lemma SceneOfPasses(data: seq<byte>, chunks: seq<RawChunk>, st: ModelPass, g: Graph)
    requires Slice(data, 0, 4) == MAGIC && |data| >= 8 && ScanFrom(data, 8) == chunks
    requires ModelsOf(chunks) == Success(st) && GraphOf(chunks) == Success(g)
    ensures SceneOf(data) == Success(VoxScene(st.models, st.palette, InstancesOf(g, |st.models|)))
  {
  }

  lemma FileHeader(ms: seq<Model>, colors: seq<Rgba>)
    requires Encodable(ms, colors)
    ensures Slice(FileBytes(ms, colors), 0, 4) == MAGIC && |FileBytes(ms, colors)| >= 8
  {
  }

  /** Without a scene graph there is one origin instance per model. */
  lemma NoGraphInstances(n: nat)
    ensures InstancesOf(Graph([], []), n) == OriginInstances(n)
  {
  }

  /** The palette read from a written RGBA chunk: entry p is what write put at file position p. */
  lemma PaletteOfFile(colors: seq<Rgba>)
    requires PaletteFits(colors)
    ensures RgbaReadable(RgbaContent(colors))
    ensures forall p :: 0 <= p < 256 ==> PaletteOf(RgbaContent(colors))[p] == RgbaEntry(colors, p)
  {
    forall p | 0 <= p < 256
      ensures PaletteOf(RgbaContent(colors))[p] == RgbaEntry(colors, p)
    {
      RgbaRoundTrip(colors, p);
    }
  }

  /**
   * Reading what write produced gives back the written models in order, a
   * 256-entry palette whose entry p is what write put at file position p
   * (slot p + 1, opaque black at 255), and one origin instance per model.
   */
  lemma WriteThenRead(ms: seq<Model>, colors: seq<Rgba>)
    requires Encodable(ms, colors)
    ensures SceneOf(FileBytes(ms, colors)).Success?
    ensures SceneOf(FileBytes(ms, colors)).value.models == ms
    ensures |SceneOf(FileBytes(ms, colors)).value.palette| == 256
    ensures forall p :: 0 <= p < 256 ==> SceneOf(FileBytes(ms, colors)).value.palette[p] == RgbaEntry(colors, p)
    ensures SceneOf(FileBytes(ms, colors)).value.instances == OriginInstances(|ms|)
  {
    var chunks := [RawChunk("MAIN", [])] + Raws(FileChunks(ms, colors));
    ScanFile(ms, colors);
    FileHeader(ms, colors);
    ModelsOfFile(ms, colors);
    GraphOfFile(ms, colors);
    SceneOfPasses(FileBytes(ms, colors), chunks, ModelsOf(chunks).value, Graph([], []));
    NoGraphInstances(|ms|);
    PaletteOfFile(colors);
  }

  /** Colour index i of a written file reads back as palette slot i of the writer: slot 0 is the only one lost. */
  lemma WrittenColorReadBack(ms: seq<Model>, colors: seq<Rgba>, i: int)
    requires Encodable(ms, colors) && |colors| == 256 && 1 <= i <= 255
    ensures VoxFileOf(FileBytes(ms, colors)).Success?
    ensures VoxelColor(VoxFileOf(FileBytes(ms, colors)).value, i) == Some(colors[i])
  {
    var data := FileBytes(ms, colors);
    WriteThenRead(ms, colors);
    VoxFileFirstModel(data);
  }

  /** The eight bytes of a file that holds no chunk at all. */
  function EmptyFile(): seq<byte> {
    MAGIC + U32LE(VOX_VERSION)
  }

  /**
   * The two default palettes disagree by one slot: in a file without an RGBA
   * chunk colour index 1 reads as default entry 0 (transparent black), while
   * a writer whose palette was left at its defaults means default entry 1
   * (opaque white) by index 1.
   */
  lemma DefaultPaletteMismatch()
    ensures VoxFileOf(EmptyFile()).Success?
    ensures VoxelColor(VoxFileOf(EmptyFile()).value, 1) == Some(Rgba(0, 0, 0, 0))
    ensures DefaultPalette()[1] == Rgba(255, 255, 255, 255)
  {
    var data := EmptyFile();
    assert Slice(data, 0, 4) == MAGIC;
    assert ScanFrom(data, 8) == [];
    assert ModelsOf([]) == Success(ModelPass(None, [], DefaultPalette()));
    assert GraphOf([]) == Success(Graph([], []));
    DefaultPaletteFirstSlots();
  }
}
