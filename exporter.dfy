/**
 * The integer core of VoxExporter: export's merge of the objects' voxels,
 * the bounding box, normalisation, clamping and first-occurrence
 * de-duplication, then one of two paths -- the preserved path that keeps
 * the colour indices and palette stored by the importer, and the standard
 * path that quantizes the voxel colours -- and the write of the result.
 */
module Exporter {
  import opened Wrappers
  import opened Bytes
  import opened Voxels
  import opened Writer
  import opened Quantizer
  import opened Importer
  import opened ReadVox
  import opened Graph
  import opened RoundTrip
  import SimpleVox

  // ---------------------------------------------------------------------
  // Collecting the voxels

  /** The fourth field of an all_voxels entry: a palette index (preserved) or an RGB colour (voxelised). */
  datatype Paint = Index(i: int) | Color(c: Rgb)

  /** One (x, y, z, colour) entry of all_voxels. */
  datatype Placed = Placed(x: int, y: int, z: int, paint: Paint)

  /** One (x, y, z, (r, g, b)) voxel as _voxelize_object returns it. */
  datatype ColoredVoxel = ColoredVoxel(x: int, y: int, z: int, color: Rgb)

  /**
   * An object handed to export, with the voxels _voxelize_object gives it.
   * The ray casting that produces them is not part of this model.
   */
  datatype ExportObject = ExportObject(obj: BlenderObject, voxelized: seq<ColoredVoxel>)

  /** ValueError (no voxels), TypeError (an RGB colour compared with an int) and struct.error (write). */
  datatype ExportError = NoVoxels | TypeError | StructError

  /** The object's voxels are taken from its metadata: preservation is on and the metadata has a non-empty palette. */
  predicate Preserves(o: ExportObject, preserve: bool) {
    preserve && GetVoxMetadata(o.obj).Some? && GetVoxMetadata(o.obj).value.palette != []
  }

  /** The metadata voxels with their original colour indices. */
  function FromMetadata(vs: seq<Voxel>): (r: seq<Placed>)
    ensures |r| == |vs|
  {
    if vs == [] then []
    else
      var v := vs[|vs| - 1];
      FromMetadata(vs[..|vs| - 1]) + [Placed(v.x, v.y, v.z, Index(v.colorIndex))]
  }

  /** The voxelised voxels with their colours. */
  function FromVoxelized(vs: seq<ColoredVoxel>): (r: seq<Placed>)
    ensures |r| == |vs|
  {
    if vs == [] then []
    else
      var v := vs[|vs| - 1];
      FromVoxelized(vs[..|vs| - 1]) + [Placed(v.x, v.y, v.z, Color(v.color))]
  }

  /** What one object adds to all_voxels. */
  function Contribution(o: ExportObject, preserve: bool): seq<Placed> {
    if Preserves(o, preserve) then FromMetadata(GetVoxMetadata(o.obj).value.voxels) else FromVoxelized(o.voxelized)
  }

  /** all_voxels after the given objects. */
  function Collected(objs: seq<ExportObject>, preserve: bool): seq<Placed> {
    if objs == [] then [] else Collected(objs[..|objs| - 1], preserve) + Contribution(objs[|objs| - 1], preserve)
  }

  /** original_palette: the palette of the last object whose metadata was used, None when there is none. */
  function LastPalette(objs: seq<ExportObject>, preserve: bool): (r: Option<seq<Rgba>>)
    ensures r.Some? ==> r.value != []
  {
    if objs == [] then None
    else if Preserves(objs[|objs| - 1], preserve) then Some(GetVoxMetadata(objs[|objs| - 1].obj).value.palette)
    else LastPalette(objs[..|objs| - 1], preserve)
  }

  // ---------------------------------------------------------------------
  // Bounding box, normalisation and de-duplication

  datatype Axis = X | Y | Z

  function Coord(p: Placed, a: Axis): int {
    match a
    case X => p.x
    case Y => p.y
    case Z => p.z
  }

  /** min(v[a] for v in vs) */
  function MinCoord(vs: seq<Placed>, a: Axis): int
    requires vs != []
  {
    if |vs| == 1 then Coord(vs[0], a)
    else
      var m := MinCoord(vs[..|vs| - 1], a);
      var c := Coord(vs[|vs| - 1], a);
      if c < m then c else m
  }

  /** max(v[a] for v in vs) */
  function MaxCoord(vs: seq<Placed>, a: Axis): int
    requires vs != []
  {
    if |vs| == 1 then Coord(vs[0], a)
    else
      var m := MaxCoord(vs[..|vs| - 1], a);
      var c := Coord(vs[|vs| - 1], a);
      if c > m then c else m
  }

  /** The minimum is attained and is below every coordinate; the maximum likewise above. */
  lemma {:induction false} CoordBounds(vs: seq<Placed>, a: Axis)
    requires vs != []
    ensures forall i :: 0 <= i < |vs| ==> MinCoord(vs, a) <= Coord(vs[i], a) <= MaxCoord(vs, a)
    ensures exists i :: 0 <= i < |vs| && Coord(vs[i], a) == MinCoord(vs, a)
    ensures exists i :: 0 <= i < |vs| && Coord(vs[i], a) == MaxCoord(vs, a)
  {
    if |vs| == 1 {
      assert Coord(vs[0], a) == MinCoord(vs, a) == MaxCoord(vs, a);
    } else {
      var n := |vs| - 1;
      var init := vs[..n];
      CoordBounds(init, a);
      var i :| 0 <= i < n && Coord(init[i], a) == MinCoord(init, a);
      var j :| 0 <= j < n && Coord(init[j], a) == MaxCoord(init, a);
      if Coord(vs[n], a) < MinCoord(init, a) {
        assert Coord(vs[n], a) == MinCoord(vs, a);
      } else {
        assert Coord(vs[i], a) == MinCoord(vs, a);
      }
      if Coord(vs[n], a) > MaxCoord(init, a) {
        assert Coord(vs[n], a) == MaxCoord(vs, a);
      } else {
        assert Coord(vs[j], a) == MaxCoord(vs, a);
      }
      forall k | 0 <= k < n
        ensures MinCoord(vs, a) <= Coord(vs[k], a) <= MaxCoord(vs, a)
      {
        assert vs[k] == init[k];
      }
    }
  }

  /** The lower corner of the bounding box. */
  function Mins(vs: seq<Placed>): (int, int, int)
    requires vs != []
  {
    (MinCoord(vs, X), MinCoord(vs, Y), MinCoord(vs, Z))
  }

  /** size = max - min + 1 on each axis. */
  function Sizes(vs: seq<Placed>): (int, int, int)
    requires vs != []
  {
    (MaxCoord(vs, X) - MinCoord(vs, X) + 1, MaxCoord(vs, Y) - MinCoord(vs, Y) + 1, MaxCoord(vs, Z) - MinCoord(vs, Z) + 1)
  }

  /** max(0, min(255, n)) */
  function Clamp(n: int): int {
    if n > 255 then 255 else if n < 0 then 0 else n
  }

  /** A voxel moved by the lower corner and clamped into the grid. */
  function Normalize(p: Placed, mins: (int, int, int)): Placed {
    Placed(Clamp(p.x - mins.0), Clamp(p.y - mins.1), Clamp(p.z - mins.2), p.paint)
  }

  function Normalized(vs: seq<Placed>, mins: (int, int, int)): (r: seq<Placed>)
    ensures |r| == |vs|
  {
    if vs == [] then [] else Normalized(vs[..|vs| - 1], mins) + [Normalize(vs[|vs| - 1], mins)]
  }

  lemma {:induction false} NormalizedAt(vs: seq<Placed>, mins: (int, int, int), i: int)
    requires 0 <= i < |vs|
    ensures Normalized(vs, mins)[i] == Normalize(vs[i], mins)
    decreases |vs|
  {
    if i < |vs| - 1 {
      NormalizedAt(vs[..|vs| - 1], mins, i);
    }
  }

  /** The (x, y, z) key of the seen set. */
  function Key(p: Placed): (int, int, int) {
    (p.x, p.y, p.z)
  }

  function KeySet(d: seq<Placed>): set<(int, int, int)> {
    if d == [] then {} else KeySet(d[..|d| - 1]) + {Key(d[|d| - 1])}
  }

  /** The voxels whose key was not seen before, in order: the first voxel of each position wins. */
  function Dedup(vs: seq<Placed>): seq<Placed> {
    if vs == [] then []
    else
      var d := Dedup(vs[..|vs| - 1]);
      var p := vs[|vs| - 1];
      if Key(p) in KeySet(d) then d else d + [p]
  }

  lemma {:induction false} KeySetMembers(d: seq<Placed>, k: (int, int, int))
    ensures k in KeySet(d) <==> exists i :: 0 <= i < |d| && Key(d[i]) == k
  {
    if d != [] {
      var n := |d| - 1;
      KeySetMembers(d[..n], k);
      if k in KeySet(d[..n]) {
        var i :| 0 <= i < n && Key(d[..n][i]) == k;
        assert Key(d[i]) == k;
      }
      if exists i :: 0 <= i < |d| && Key(d[i]) == k {
        var i :| 0 <= i < |d| && Key(d[i]) == k;
        if i < n {
          assert Key(d[..n][i]) == k;
        }
      }
    }
  }

  // ---------------------------------------------------------------------
  // The two paths

  /** A colour index outside 1..255 is written as 1. */
  function ValidIndex(ci: int): int {
    if 1 <= ci <= 255 then ci else 1
  }

  /** The preserved path's voxels: each index made valid, or TypeError at the first voxel that carries a colour. */
  function IndexedVoxels(d: seq<Placed>): (r: Result<seq<Voxel>, ExportError>)
    ensures r.Failure? ==> r.error == ExportError.TypeError
  {
    if d == [] then Success([])
    else
      match IndexedVoxels(d[..|d| - 1])
      case Failure(e) => Failure(e)
      case Success(vs) =>
        var p := d[|d| - 1];
        match p.paint
        case Index(ci) => Success(vs + [Voxel(p.x, p.y, p.z, ValidIndex(ci))])
        case Color(_) => Failure(ExportError.TypeError)
  }

  /** The palette after set_color(i + 1, entries[i]) for every i. */
  function SetSlots(base: seq<Rgba>, entries: seq<Rgba>): (r: seq<Rgba>)
    requires |base| == 256 && |entries| <= 255
    ensures |r| == 256
  {
    if entries == [] then base else SetSlots(base, entries[..|entries| - 1])[|entries| := entries[|entries| - 1]]
  }

  /** The preserved palette entries the loop writes: those with i < 255. */
  function Take255(pal: seq<Rgba>): (r: seq<Rgba>)
    ensures |r| <= 255
  {
    if |pal| <= 255 then pal else pal[..255]
  }

  predicate AllColor(d: seq<Placed>) {
    forall p :: p in d ==> p.paint.Color?
  }

  /** [v[3] for v in unique_voxels] */
  function ColorsOf(d: seq<Placed>): (r: seq<Rgb>)
    requires AllColor(d)
    ensures |r| == |d|
  {
    if d == [] then [] else ColorsOf(d[..|d| - 1]) + [d[|d| - 1].paint.c]
  }

  /** color_map.get(color, 1) */
  function MapGet(index: map<Rgb, int>, c: Rgb): int {
    if c in index then index[c] else 1
  }

  /** The standard path's voxels: each colour replaced by its index. */
  function MappedVoxels(d: seq<Placed>, index: map<Rgb, int>): (r: seq<Voxel>)
    requires AllColor(d)
    ensures |r| == |d|
  {
    if d == [] then []
    else
      var p := d[|d| - 1];
      MappedVoxels(d[..|d| - 1], index) + [Voxel(p.x, p.y, p.z, MapGet(index, p.paint.c))]
  }

  /** set_color(i + 1, r, g, b, 255) for the quantized palette. */
  function Opaques(cs: seq<Rgb>): (r: seq<Rgba>)
    ensures |r| == |cs|
  {
    if cs == [] then [] else Opaques(cs[..|cs| - 1]) + [SimpleVox.Opaque(cs[|cs| - 1])]
  }

  /** Without any preserved object every collected voxel carries a colour. */
  lemma {:induction false} CollectedColored(objs: seq<ExportObject>, preserve: bool)
    requires LastPalette(objs, preserve).None?
    ensures AllColor(Collected(objs, preserve))
  {
    if objs != [] {
      var n := |objs| - 1;
      CollectedColored(objs[..n], preserve);
      VoxelizedColored(objs[n].voxelized);
    }
  }

  lemma {:induction false} VoxelizedColored(vs: seq<ColoredVoxel>)
    ensures AllColor(FromVoxelized(vs))
  {
    if vs != [] {
      VoxelizedColored(vs[..|vs| - 1]);
    }
  }

  lemma {:induction false} NormalizedColored(vs: seq<Placed>, mins: (int, int, int))
    requires AllColor(vs)
    ensures AllColor(Normalized(vs, mins))
  {
    if vs != [] {
      assert vs[|vs| - 1] in vs;
      assert AllColor(vs[..|vs| - 1]) by {
        forall p | p in vs[..|vs| - 1]
          ensures p.paint.Color?
        {
          assert p in vs;
        }
      }
      NormalizedColored(vs[..|vs| - 1], mins);
    }
  }

  /** Every kept voxel is one of the input voxels. */
  lemma {:induction false} DedupFrom(vs: seq<Placed>, p: Placed)
    requires p in Dedup(vs)
    ensures p in vs
  {
    if vs != [] {
      var n := |vs| - 1;
      if p in Dedup(vs[..n]) {
        DedupFrom(vs[..n], p);
        assert p in vs[..n];
      }
    }
  }

  lemma DedupColored(vs: seq<Placed>)
    requires AllColor(vs)
    ensures AllColor(Dedup(vs))
  {
    forall p | p in Dedup(vs)
      ensures p.paint.Color?
    {
      DedupFrom(vs, p);
    }
  }

  /** The voxels both paths start from: all_voxels normalised, clamped and de-duplicated. */
  function Unique(all: seq<Placed>): seq<Placed>
    requires all != []
  {
    Dedup(Normalized(all, Mins(all)))
  }

  lemma StandardColored(objs: seq<ExportObject>, preserve: bool)
    requires Collected(objs, preserve) != []
    ensures LastPalette(objs, preserve).None? ==> AllColor(Unique(Collected(objs, preserve)))
  {
    if LastPalette(objs, preserve).None? {
      var all := Collected(objs, preserve);
      CollectedColored(objs, preserve);
      NormalizedColored(all, Mins(all));
      DedupColored(Normalized(all, Mins(all)));
    }
  }

  /** The list order of set(colors) in this model: first appearance. */
  function ColorOrder(cs: seq<Rgb>): (unique: seq<Rgb>)
    ensures IsUniqueList(unique, cs)
    ensures forall i, j :: 0 <= i < j < |unique| ==> SimpleVox.FirstIndex(cs, unique[i]) < SimpleVox.FirstIndex(cs, unique[j])
  {
    SimpleVox.DistinctOrder(cs);
    SimpleVox.Distinct(cs)
  }

  /** quantize_colors(colors, 255) on the kept voxels' colours: it never fails and yields 1..255 colours. */
  function StandardQuantized(d: seq<Placed>): (q: Quantized)
    requires AllColor(d)
    ensures 1 <= |q.palette| <= 255
  {
    var cs := ColorsOf(d);
    QuantizeBounded(cs, 255, ColorOrder(cs));
    Quantize(cs, 255, ColorOrder(cs)).value
  }

  /** The preserved path: the kept voxels with their original indices, and the last original palette in slots 1..255. */
  function PreservedExport(all: seq<Placed>, pal: seq<Rgba>, base: seq<Rgba>): Result<(Model, seq<Rgba>), ExportError>
    requires all != [] && |base| == 256
  {
    var size := Sizes(all);
    match IndexedVoxels(Unique(all))
    case Failure(e) => Failure(e)
    case Success(vs) => Success((Model(size.0, size.1, size.2, vs), SetSlots(base, Take255(pal))))
  }

  /** The standard path: the kept voxels with their quantized indices, and the quantized palette, opaque, from slot 1. */
  function StandardExport(all: seq<Placed>, base: seq<Rgba>): (Model, seq<Rgba>)
    requires all != [] && AllColor(Unique(all)) && |base| == 256
  {
    var size := Sizes(all);
    var q := StandardQuantized(Unique(all));
    (Model(size.0, size.1, size.2, MappedVoxels(Unique(all), q.index)), SetSlots(base, Opaques(q.palette)))
  }

  /** The model and palette built from the collected voxels: the preserved path when a
      stored palette was found, the standard path otherwise; base is the writer's starting palette. */
  function ModelOf(all: seq<Placed>, original: Option<seq<Rgba>>, base: seq<Rgba>): Result<(Model, seq<Rgba>), ExportError>
    requires all != [] && |base| == 256 && (original.None? ==> AllColor(Unique(all)))
  {
    match original
    case Some(pal) => PreservedExport(all, pal, base)
    case None => Success(StandardExport(all, base))
  }

  /**
   * The model export writes and the palette it leaves in the writer:
   * ValueError when nothing was collected, else the preserved path when
   * some object's metadata was used, else the standard path.
   */
  function ExportModel(objs: seq<ExportObject>, preserve: bool): Result<(Model, seq<Rgba>), ExportError> {
    var all := Collected(objs, preserve);
    if all == [] then Failure(ExportError.NoVoxels)
    else
      var original := LastPalette(objs, preserve);
      StandardColored(objs, preserve);
      ModelOf(all, original, DefaultPalette())
  }

  /** export: the bytes writer.write produces for the one model, or the error raised on the way. */
  function ExportResult(objs: seq<ExportObject>, preserve: bool): Result<seq<byte>, ExportError> {
    Written(ExportModel(objs, preserve))
  }

  /** The bytes written for a built model and palette; a struct.error of the writer is re-raised. */
  function Written(built: Result<(Model, seq<Rgba>), ExportError>): Result<seq<byte>, ExportError> {
    match built
    case Failure(e) => Failure(e)
    case Success(mp) =>
      match WriteResult([mp.0], mp.1)
      case Failure(_) => Failure(ExportError.StructError)
      case Success(bytes) => Success(bytes)
  }

  // ---------------------------------------------------------------------
  // Properties of the pieces

  /** Slot k of the written palette holds entry k - 1. */
  lemma {:induction false} SetSlotsEntry(base: seq<Rgba>, entries: seq<Rgba>, k: int)
    requires |base| == 256 && |entries| <= 255 && 1 <= k <= |entries|
    ensures SetSlots(base, entries)[k] == entries[k - 1]
  {
    if k != |entries| {
      SetSlotsEntry(base, entries[..|entries| - 1], k);
    }
  }

  lemma {:induction false} SetSlotsAt(base: seq<Rgba>, entries: seq<Rgba>, k: int)
    requires |base| == 256 && |entries| <= 255 && 0 <= k < 256
    ensures SetSlots(base, entries)[k] == if 1 <= k <= |entries| then entries[k - 1] else base[k]
  {
    if entries != [] && k != |entries| {
      SetSlotsAt(base, entries[..|entries| - 1], k);
    }
  }

  lemma {:induction false} OpaquesAt(cs: seq<Rgb>, i: int)
    requires 0 <= i < |cs|
    ensures Opaques(cs)[i] == SimpleVox.Opaque(cs[i])
  {
    if i < |cs| - 1 {
      OpaquesAt(cs[..|cs| - 1], i);
    }
  }

  lemma {:induction false} ColorsOfAt(d: seq<Placed>, i: int)
    requires AllColor(d) && 0 <= i < |d|
    ensures ColorsOf(d)[i] == d[i].paint.c
  {
    if i < |d| - 1 {
      assert AllColor(d[..|d| - 1]) by {
        forall p | p in d[..|d| - 1]
          ensures p.paint.Color?
        {
          assert p in d;
        }
      }
      ColorsOfAt(d[..|d| - 1], i);
    }
  }

  lemma {:induction false} MappedVoxelsAt(d: seq<Placed>, index: map<Rgb, int>, i: int)
    requires AllColor(d) && 0 <= i < |d|
    ensures MappedVoxels(d, index)[i] == Voxel(d[i].x, d[i].y, d[i].z, MapGet(index, d[i].paint.c))
  {
    if i < |d| - 1 {
      assert AllColor(d[..|d| - 1]) by {
        forall p | p in d[..|d| - 1]
          ensures p.paint.Color?
        {
          assert p in d;
        }
      }
      MappedVoxelsAt(d[..|d| - 1], index, i);
    }
  }

  /** The preserved path fails exactly when some kept voxel carries a colour; otherwise each index is kept, or made 1 when invalid. */
  lemma {:induction false} IndexedVoxelsSpec(d: seq<Placed>)
    ensures IndexedVoxels(d).Success? <==> forall i :: 0 <= i < |d| ==> d[i].paint.Index?
    ensures IndexedVoxels(d).Failure? ==> IndexedVoxels(d).error == ExportError.TypeError
    ensures IndexedVoxels(d).Success? ==>
      && |IndexedVoxels(d).value| == |d|
      && forall i :: 0 <= i < |d| ==> IndexedVoxels(d).value[i] == Voxel(d[i].x, d[i].y, d[i].z, ValidIndex(d[i].paint.i))
  {
    if d != [] {
      var n := |d| - 1;
      IndexedVoxelsSpec(d[..n]);
      assert forall i :: 0 <= i < n ==> d[..n][i] == d[i];
      if IndexedVoxels(d[..n]).Failure? {
        var i :| 0 <= i < n && !d[..n][i].paint.Index?;
        assert !d[i].paint.Index?;
      }
    }
  }

  /** A failure on a prefix of the kept voxels is the failure of the whole. */
  lemma {:induction false} IndexedVoxelsFailsEarly(d: seq<Placed>, t: seq<Placed>)
    requires IndexedVoxels(d).Failure?
    ensures IndexedVoxels(d + t) == IndexedVoxels(d)
  {
    if t != [] {
      IndexedVoxelsFailsEarly(d, t[..|t| - 1]);
      assert (d + t)[..|d + t| - 1] == d + t[..|t| - 1];
    } else {
      assert d + t == d;
    }
  }

  /** The seen set holds exactly the positions of the kept voxels, which are those of all the voxels. */
  lemma {:induction false} DedupKeys(vs: seq<Placed>)
    ensures KeySet(Dedup(vs)) == KeySet(vs)
  {
    if vs != [] {
      var n := |vs| - 1;
      DedupKeys(vs[..n]);
      var d := Dedup(vs[..n]);
      if Key(vs[n]) !in KeySet(d) {
        assert (d + [vs[n]])[..|d|] == d;
      }
    }
  }

  /** No two kept voxels share a position. */
  lemma {:induction false} DedupDistinct(vs: seq<Placed>)
    ensures forall i, j :: 0 <= i < j < |Dedup(vs)| ==> Key(Dedup(vs)[i]) != Key(Dedup(vs)[j])
  {
    if vs != [] {
      var n := |vs| - 1;
      DedupDistinct(vs[..n]);
      var d := Dedup(vs[..n]);
      if Key(vs[n]) !in KeySet(d) {
        KeySetMembers(d, Key(vs[n]));
        var e := d + [vs[n]];
        forall i, j | 0 <= i < j < |e|
          ensures Key(e[i]) != Key(e[j])
        {
          if j == |d| {
            assert e[i] == d[i];
          } else {
            assert e[i] == d[i] && e[j] == d[j];
          }
        }
      }
    }
  }

  /** Every kept voxel is the first voxel with its position, and kept voxels keep their order. */
  lemma {:induction false} DedupFirst(vs: seq<Placed>, j: int)
    requires 0 <= j < |Dedup(vs)|
    ensures exists i :: 0 <= i < |vs| && vs[i] == Dedup(vs)[j] && forall k :: 0 <= k < i ==> Key(vs[k]) != Key(vs[i])
  {
    var n := |vs| - 1;
    var d := Dedup(vs[..n]);
    if j < |d| {
      DedupFirst(vs[..n], j);
      var i :| 0 <= i < n && vs[..n][i] == d[j] && forall k :: 0 <= k < i ==> Key(vs[..n][k]) != Key(vs[..n][i]);
      assert Dedup(vs)[j] == d[j];
      assert forall k :: 0 <= k < i ==> vs[..n][k] == vs[k];
      assert vs[i] == Dedup(vs)[j];
    } else {
      assert Key(vs[n]) !in KeySet(d) && Dedup(vs)[j] == vs[n];
      DedupKeys(vs[..n]);
      forall k | 0 <= k < n
        ensures Key(vs[k]) != Key(vs[n])
      {
        KeySetMembers(vs[..n], Key(vs[k]));
        assert vs[..n][k] == vs[k];
      }
    }
  }

  lemma {:induction false} DedupExtends(vs: seq<Placed>, i: int)
    requires 0 <= i <= |vs|
    ensures exists t :: Dedup(vs) == Dedup(vs[..i]) + t
    decreases |vs|
  {
    if i == |vs| {
      assert vs[..i] == vs && Dedup(vs) == Dedup(vs[..i]) + [];
    } else {
      var n := |vs| - 1;
      DedupExtends(vs[..n], i);
      assert vs[..n][..i] == vs[..i];
      var t :| Dedup(vs[..n]) == Dedup(vs[..i]) + t;
      if Key(vs[n]) in KeySet(Dedup(vs[..n])) {
        assert Dedup(vs) == Dedup(vs[..i]) + t;
      } else {
        assert Dedup(vs) == Dedup(vs[..i]) + (t + [vs[n]]);
      }
    }
  }

  /** Normalising never clamps from below: each offset is the distance above the minimum, capped at 255. */
  lemma NormalizeOffsets(all: seq<Placed>, i: int)
    requires 0 <= i < |all|
    ensures var p := Normalized(all, Mins(all))[i];
      && p.x == (if all[i].x - MinCoord(all, X) <= 255 then all[i].x - MinCoord(all, X) else 255)
      && p.y == (if all[i].y - MinCoord(all, Y) <= 255 then all[i].y - MinCoord(all, Y) else 255)
      && p.z == (if all[i].z - MinCoord(all, Z) <= 255 then all[i].z - MinCoord(all, Z) else 255)
      && p.paint == all[i].paint
  {
    NormalizedAt(all, Mins(all), i);
    CoordBounds(all, X);
    CoordBounds(all, Y);
    CoordBounds(all, Z);
    assert Coord(all[i], X) == all[i].x && Coord(all[i], Y) == all[i].y && Coord(all[i], Z) == all[i].z;
  }

  /** Every kept voxel lies in the 256-cube the format allows. */
  lemma UniqueInGrid(all: seq<Placed>, p: Placed)
    requires all != [] && p in Unique(all)
    ensures 0 <= p.x < 256 && 0 <= p.y < 256 && 0 <= p.z < 256
  {
    var ns := Normalized(all, Mins(all));
    DedupFrom(ns, p);
    var i :| 0 <= i < |ns| && ns[i] == p;
    NormalizedAt(all, Mins(all), i);
  }

  /** The bounding box has at least one cell on each axis, its extent being max - min + 1. */
  lemma SizesPositive(all: seq<Placed>)
    requires all != []
    ensures Sizes(all).0 >= 1 && Sizes(all).1 >= 1 && Sizes(all).2 >= 1
  {
    CoordBounds(all, X);
    CoordBounds(all, Y);
    CoordBounds(all, Z);
  }

  /** Voxel v names a slot of colors holding, opaque, the palette colour nearest to c. */
  predicate NamesNearest(v: Voxel, c: Rgb, palette: seq<Rgb>, colors: seq<Rgba>) {
    && 1 <= v.colorIndex <= |palette|
    && v.colorIndex < |colors|
    && colors[v.colorIndex] == SimpleVox.Opaque(palette[v.colorIndex - 1])
    && IsFirstNearest(c, palette, v.colorIndex - 1)
  }

  /** A kept voxel of the standard path names the slot of its nearest quantized colour; its own colour when there are at most 255. */
  lemma StandardVoxel(d: seq<Placed>, base: seq<Rgba>, i: int)
    requires AllColor(d) && |base| == 256 && 0 <= i < |d|
    ensures var q := StandardQuantized(d);
      var v := MappedVoxels(d, q.index)[i];
      && NamesNearest(v, d[i].paint.c, q.palette, SetSlots(base, Opaques(q.palette)))
      && (|ColorOrder(ColorsOf(d))| <= 255 ==> q.palette[v.colorIndex - 1] == d[i].paint.c)
  {
    var cs := ColorsOf(d);
    var c := d[i].paint.c;
    ColorsOfAt(d, i);
    QuantizeSlot(cs, 255, ColorOrder(cs), c);
    var q := StandardQuantized(d);
    assert q == Quantize(cs, 255, ColorOrder(cs)).value;
    MappedVoxelsAt(d, q.index, i);
    var k := q.index[c];
    assert MappedVoxels(d, q.index)[i].colorIndex == k;
    var entries := Opaques(q.palette);
    assert 1 <= k <= |entries|;
    SetSlotsEntry(base, entries, k);
    OpaquesAt(q.palette, k - 1);
  }

  /** The preserved path's outcome and content. */
  lemma PreservedSpec(all: seq<Placed>, pal: seq<Rgba>, base: seq<Rgba>)
    requires all != [] && |base| == 256
    ensures PreservedExport(all, pal, base).Success? <==> forall i :: 0 <= i < |Unique(all)| ==> Unique(all)[i].paint.Index?
    ensures PreservedExport(all, pal, base).Failure? ==> PreservedExport(all, pal, base).error == ExportError.TypeError
    ensures PreservedExport(all, pal, base).Success? ==>
      var m := PreservedExport(all, pal, base).value.0;
      var d := Unique(all);
      && (m.sizeX, m.sizeY, m.sizeZ) == Sizes(all)
      && |m.voxels| == |d|
      && forall i :: 0 <= i < |d| ==> m.voxels[i] == Voxel(d[i].x, d[i].y, d[i].z, ValidIndex(d[i].paint.i))
    ensures PreservedExport(all, pal, base).Success? ==>
      var colors := PreservedExport(all, pal, base).value.1;
      forall k :: 0 <= k < 256 ==> colors[k] == if 1 <= k <= |pal| && k <= 255 then pal[k - 1] else base[k]
  {
    IndexedVoxelsSpec(Unique(all));
    if PreservedExport(all, pal, base).Success? {
      var colors := PreservedExport(all, pal, base).value.1;
      forall k | 0 <= k < 256
        ensures colors[k] == if 1 <= k <= |pal| && k <= 255 then pal[k - 1] else base[k]
      {
        SetSlotsAt(base, Take255(pal), k);
      }
    }
  }

  /** The standard path's content: every voxel names the slot of its nearest quantized colour. */
  lemma StandardSpec(all: seq<Placed>, base: seq<Rgba>)
    requires all != [] && AllColor(Unique(all)) && |base| == 256
    ensures var m := StandardExport(all, base).0;
      var colors := StandardExport(all, base).1;
      var d := Unique(all);
      var q := StandardQuantized(d);
      var few := |ColorOrder(ColorsOf(d))| <= 255;
      && (m.sizeX, m.sizeY, m.sizeZ) == Sizes(all)
      && |m.voxels| == |d|
      && forall i :: 0 <= i < |d| ==>
        && (m.voxels[i].x, m.voxels[i].y, m.voxels[i].z) == Key(d[i])
        && NamesNearest(m.voxels[i], d[i].paint.c, q.palette, colors)
        && (few ==> q.palette[m.voxels[i].colorIndex - 1] == d[i].paint.c)
  {
    StandardKeys(all, base);
    StandardNearest(all, base);
  }

  /** The standard path keeps the sizes and every kept voxel's position, in order. */
  lemma StandardKeys(all: seq<Placed>, base: seq<Rgba>)
    requires all != [] && AllColor(Unique(all)) && |base| == 256
    ensures var m := StandardExport(all, base).0;
      var d := Unique(all);
      && (m.sizeX, m.sizeY, m.sizeZ) == Sizes(all)
      && |m.voxels| == |d|
      && forall i :: 0 <= i < |d| ==> (m.voxels[i].x, m.voxels[i].y, m.voxels[i].z) == Key(d[i])
  {
    var d := Unique(all);
    var q := StandardQuantized(d);
    var m := StandardExport(all, base).0;
    assert m.voxels == MappedVoxels(d, q.index);
    forall i | 0 <= i < |d|
      ensures (m.voxels[i].x, m.voxels[i].y, m.voxels[i].z) == Key(d[i])
    {
      MappedVoxelsAt(d, q.index, i);
    }
  }

  /** On the standard path every kept voxel names its nearest quantized colour, its own one when all fit. */
  lemma StandardNearest(all: seq<Placed>, base: seq<Rgba>)
    requires all != [] && AllColor(Unique(all)) && |base| == 256
    ensures var m := StandardExport(all, base).0;
      var d := Unique(all);
      var q := StandardQuantized(d);
      && |m.voxels| == |d|
      && forall i :: 0 <= i < |d| ==>
        && NamesNearest(m.voxels[i], d[i].paint.c, q.palette, StandardExport(all, base).1)
        && (|ColorOrder(ColorsOf(d))| <= 255 ==> q.palette[m.voxels[i].colorIndex - 1] == d[i].paint.c)
  {
    var d := Unique(all);
    var q := StandardQuantized(d);
    var e := StandardExport(all, base);
    var vs, colors := MappedVoxels(d, q.index), SetSlots(base, Opaques(q.palette));
    assert e.0.voxels == vs && e.1 == colors;
    forall i | 0 <= i < |d|
      ensures NamesNearest(vs[i], d[i].paint.c, q.palette, colors)
      ensures |ColorOrder(ColorsOf(d))| <= 255 ==> q.palette[vs[i].colorIndex - 1] == d[i].paint.c
    {
      StandardVoxel(d, base, i);
    }
  }

  // ---------------------------------------------------------------------
  // Properties of export

  /**
   * export raises ValueError exactly when no voxel was collected, TypeError
   * exactly when the preserved path keeps a voxelised voxel, and otherwise
   * yields a model.
   */
  lemma ExportOutcome(objs: seq<ExportObject>, preserve: bool)
    ensures ExportModel(objs, preserve) == Failure(ExportError.NoVoxels) <==> Collected(objs, preserve) == []
    ensures ExportModel(objs, preserve) == Failure(ExportError.TypeError) <==>
      && Collected(objs, preserve) != []
      && LastPalette(objs, preserve).Some?
      && exists p :: p in Unique(Collected(objs, preserve)) && p.paint.Color?
    ensures ExportModel(objs, preserve).Failure? ==> ExportModel(objs, preserve).error in {ExportError.NoVoxels, ExportError.TypeError}
  {
    var all := Collected(objs, preserve);
    if all != [] && LastPalette(objs, preserve).Some? {
      PreservedFailure(all, LastPalette(objs, preserve).value, DefaultPalette());
    }
  }

  /** The preserved path fails, with TypeError, exactly when a kept voxel carries a colour. */
  lemma PreservedFailure(all: seq<Placed>, pal: seq<Rgba>, base: seq<Rgba>)
    requires all != [] && |base| == 256
    ensures PreservedExport(all, pal, base).Failure? <==> exists p :: p in Unique(all) && p.paint.Color?
    ensures PreservedExport(all, pal, base).Failure? ==> PreservedExport(all, pal, base).error == ExportError.TypeError
  {
    var d := Unique(all);
    PreservedSpec(all, pal, base);
    if exists p :: p in d && p.paint.Color? {
      var p :| p in d && p.paint.Color?;
      var i :| 0 <= i < |d| && d[i] == p;
    }
  }

  /**
   * A written model spans the bounding box (max - min + 1 on each axis, at
   * least 1), holds one voxel per kept position, in order, and every voxel
   * passes add_voxel's range checks.
   */
  lemma ExportShape(objs: seq<ExportObject>, preserve: bool)
    requires ExportModel(objs, preserve).Success?
    ensures var all := Collected(objs, preserve);
      var m := ExportModel(objs, preserve).value.0;
      && all != []
      && (m.sizeX, m.sizeY, m.sizeZ) == Sizes(all)
      && m.sizeX >= 1 && m.sizeY >= 1 && m.sizeZ >= 1
      && |m.voxels| == |Unique(all)|
      && (forall i :: 0 <= i < |m.voxels| ==> (m.voxels[i].x, m.voxels[i].y, m.voxels[i].z) == Key(Unique(all)[i]))
      && (forall i :: 0 <= i < |m.voxels| ==> Addable(m.voxels[i]))
      && |ExportModel(objs, preserve).value.1| == 256
  {
    var all := Collected(objs, preserve);
    SizesPositive(all);
    if LastPalette(objs, preserve).Some? {
      var pal := LastPalette(objs, preserve).value;
      assert ExportModel(objs, preserve) == PreservedExport(all, pal, DefaultPalette());
      PreservedShape(all, pal, DefaultPalette());
    } else {
      StandardColored(objs, preserve);
      assert ExportModel(objs, preserve) == Success(StandardExport(all, DefaultPalette()));
      StandardShape(all, DefaultPalette());
    }
  }

  lemma PreservedShape(all: seq<Placed>, pal: seq<Rgba>, base: seq<Rgba>)
    requires all != [] && |base| == 256 && PreservedExport(all, pal, base).Success?
    ensures var m := PreservedExport(all, pal, base).value.0;
      && |m.voxels| == |Unique(all)|
      && (forall i :: 0 <= i < |m.voxels| ==> (m.voxels[i].x, m.voxels[i].y, m.voxels[i].z) == Key(Unique(all)[i]))
      && (forall i :: 0 <= i < |m.voxels| ==> Addable(m.voxels[i]))
  {
    var d := Unique(all);
    PreservedSpec(all, pal, base);
    var m := PreservedExport(all, pal, base).value.0;
    forall i | 0 <= i < |m.voxels|
      ensures Addable(m.voxels[i])
    {
      UniqueInGrid(all, d[i]);
    }
  }

  lemma StandardShape(all: seq<Placed>, base: seq<Rgba>)
    requires all != [] && AllColor(Unique(all)) && |base| == 256
    ensures var m := StandardExport(all, base).0;
      && |m.voxels| == |Unique(all)|
      && (forall i :: 0 <= i < |m.voxels| ==> (m.voxels[i].x, m.voxels[i].y, m.voxels[i].z) == Key(Unique(all)[i]))
      && (forall i :: 0 <= i < |m.voxels| ==> Addable(m.voxels[i]))
  {
    var d := Unique(all);
    StandardSpec(all, base);
    var m := StandardExport(all, base).0;
    var palette := StandardQuantized(d).palette;
    forall i | 0 <= i < |m.voxels|
      ensures Addable(m.voxels[i])
    {
      UniqueInGrid(all, d[i]);
      assert NamesNearest(m.voxels[i], d[i].paint.c, palette, StandardExport(all, base).1);
    }
  }

  /**
   * On the preserved path the palette holds the last original palette in
   * slots 1..255 (entry i in slot i + 1) and the default colours elsewhere.
   */
  lemma ExportPreservedPalette(objs: seq<ExportObject>, preserve: bool, pal: seq<Rgba>)
    requires LastPalette(objs, preserve) == Some(pal) && ExportModel(objs, preserve).Success?
    ensures var colors := ExportModel(objs, preserve).value.1;
      forall k :: 0 <= k < 256 ==> colors[k] == if 1 <= k <= |pal| && k <= 255 then pal[k - 1] else DefaultPalette()[k]
  {
    PreservedSpec(Collected(objs, preserve), pal, DefaultPalette());
  }

  /**
   * On the preserved path every voxel keeps its original colour index, 1
   * standing in for an invalid one.
   */
  lemma ExportPreservedVoxels(objs: seq<ExportObject>, preserve: bool, pal: seq<Rgba>)
    requires LastPalette(objs, preserve) == Some(pal) && ExportModel(objs, preserve).Success?
    ensures var d := Unique(Collected(objs, preserve));
      var m := ExportModel(objs, preserve).value.0;
      |m.voxels| == |d| && forall i :: 0 <= i < |d| ==> d[i].paint.Index? && m.voxels[i].colorIndex == ValidIndex(d[i].paint.i)
  {
    PreservedSpec(Collected(objs, preserve), pal, DefaultPalette());
  }

  /** The slots of the exported palette that the stored palette fills. */
  lemma ExportPreservedSlots(objs: seq<ExportObject>, preserve: bool, pal: seq<Rgba>)
    requires LastPalette(objs, preserve) == Some(pal) && ExportModel(objs, preserve).Success?
    ensures var colors := ExportModel(objs, preserve).value.1;
      |colors| == 256 && forall k :: 1 <= k <= |pal| && k <= 255 ==> colors[k] == pal[k - 1]
  {
    ExportPreservedPalette(objs, preserve, pal);
  }

  /**
   * On the standard path, kept colours whose channels are all in 0..255
   * give a written palette that packs: the quantized colours stay inside
   * those bounds, and the untouched slots hold default colours.
   */
  lemma StandardPalettePacks(all: seq<Placed>)
    requires all != [] && AllColor(Unique(all))
    requires forall k :: ChannelWithin(ColorsOf(Unique(all)), k, 0, 255)
    ensures PaletteFits(StandardExport(all, DefaultPalette()).1)
  {
    var q := StandardQuantized(Unique(all));
    QuantizedWithin(Unique(all));
    SlotsPack(q.palette);
  }

  lemma QuantizedWithin(d: seq<Placed>)
    requires AllColor(d) && forall k :: ChannelWithin(ColorsOf(d), k, 0, 255)
    ensures forall k :: ChannelWithin(StandardQuantized(d).palette, k, 0, 255)
  {
    var cs := ColorsOf(d);
    assert StandardQuantized(d) == Quantize(cs, 255, ColorOrder(cs)).value;
    if cs == [] {
      assert StandardQuantized(d).palette == [GREY];
    } else {
      forall k
        ensures ChannelWithin(StandardQuantized(d).palette, k, 0, 255)
      {
        QuantizeWithin(cs, 255, ColorOrder(cs), k, 0, 255);
      }
    }
  }

  /** Opaque colours with channels in 0..255 written over the default palette: every packed slot fits. */
  lemma SlotsPack(palette: seq<Rgb>)
    requires |palette| <= 255 && forall k :: ChannelWithin(palette, k, 0, 255)
    ensures PaletteFits(SetSlots(DefaultPalette(), Opaques(palette)))
  {
    var colors := SetSlots(DefaultPalette(), Opaques(palette));
    DefaultPaletteFits();
    forall k | 1 <= k < 256
      ensures ByteRgba(colors[k])
    {
      SlotPacks(palette, k);
    }
    PaletteFitsSlots(colors);
  }

  /** One slot of that palette: a written colour within 0..255, or a default one. */
  lemma SlotPacks(palette: seq<Rgb>, k: int)
    requires |palette| <= 255 && forall ch :: ChannelWithin(palette, ch, 0, 255)
    requires 1 <= k < 256 && PaletteFits(DefaultPalette())
    ensures ByteRgba(SetSlots(DefaultPalette(), Opaques(palette))[k])
  {
    var entries := Opaques(palette);
    SetSlotsAt(DefaultPalette(), entries, k);
    if k <= |entries| {
      OpaquesAt(palette, k - 1);
      var c := palette[k - 1];
      assert ChannelWithin(palette, Red, 0, 255) && ChannelWithin(palette, Green, 0, 255) && ChannelWithin(palette, Blue, 0, 255);
      assert Chan(c, Red) == c.r && Chan(c, Green) == c.g && Chan(c, Blue) == c.b;
    } else {
      assert RgbaEntry(DefaultPalette(), k - 1) == DefaultPalette()[k];
    }
  }

  /**
   * export without a stored palette, when every kept colour has channels
   * in 0..255: building the model succeeds and its palette packs, so the
   * write can fail (struct.error) only on the model's size or voxel count.
   */
  lemma ExportStandardWrite(objs: seq<ExportObject>, preserve: bool)
    requires LastPalette(objs, preserve).None? && Collected(objs, preserve) != []
    requires AllColor(Unique(Collected(objs, preserve)))
    requires forall k :: ChannelWithin(ColorsOf(Unique(Collected(objs, preserve))), k, 0, 255)
    ensures ExportModel(objs, preserve).Success?
    ensures PaletteFits(ExportModel(objs, preserve).value.1)
    ensures var m := ExportModel(objs, preserve).value.0;
      ExportResult(objs, preserve).Failure? <==> !ModelFits(m) || !IsU32(|MainChildrenBytes([m], ExportModel(objs, preserve).value.1)|)
  {
    var all := Collected(objs, preserve);
    var built := ExportModel(objs, preserve);
    StandardColored(objs, preserve);
    assert built == Success(StandardExport(all, DefaultPalette()));
    StandardPalettePacks(all);
    WrittenFails(built.value.0, built.value.1);
  }

  /** A built model whose palette packs is written unless its size or its byte count does not fit. */
  lemma WrittenFails(m: Model, colors: seq<Rgba>)
    requires PaletteFits(colors)
    ensures Written(Success((m, colors))).Failure? <==> !ModelFits(m) || !IsU32(|MainChildrenBytes([m], colors)|)
  {
    assert AllFit([m]) <==> ModelFits(m);
  }

  /**
   * On the standard path export always yields a model whose every voxel
   * names a slot holding, opaque, the quantized colour nearest to the
   * voxel's own colour -- that colour itself when there are at most 255.
   */
  lemma ExportStandard(objs: seq<ExportObject>, preserve: bool)
    requires LastPalette(objs, preserve).None? && Collected(objs, preserve) != []
    ensures ExportModel(objs, preserve).Success?
    ensures var d := Unique(Collected(objs, preserve));
      var m := ExportModel(objs, preserve).value.0;
      var colors := ExportModel(objs, preserve).value.1;
      && AllColor(d)
      && |m.voxels| == |d|
      && forall i :: 0 <= i < |d| ==>
        && NamesNearest(m.voxels[i], d[i].paint.c, StandardQuantized(d).palette, colors)
        && (|ColorOrder(ColorsOf(d))| <= 255 ==> colors[m.voxels[i].colorIndex] == SimpleVox.Opaque(d[i].paint.c))
  {
    var all := Collected(objs, preserve);
    StandardColored(objs, preserve);
    assert ExportModel(objs, preserve) == Success(StandardExport(all, DefaultPalette()));
    StandardSpec(all, DefaultPalette());
    var d := Unique(all);
    var m := StandardExport(all, DefaultPalette()).0;
    var colors := StandardExport(all, DefaultPalette()).1;
    var palette := StandardQuantized(d).palette;
    forall i | 0 <= i < |d| && |ColorOrder(ColorsOf(d))| <= 255
      ensures colors[m.voxels[i].colorIndex] == SimpleVox.Opaque(d[i].paint.c)
    {
      assert NamesNearest(m.voxels[i], d[i].paint.c, palette, colors);
      assert palette[m.voxels[i].colorIndex - 1] == d[i].paint.c;
    }
  }

  /**
   * The file export writes reads back as one model at the origin -- the
   * model built -- with the palette set up before writing, slot p + 1 of
   * the writer being entry p of the file.
   */
  lemma ExportReadBack(objs: seq<ExportObject>, preserve: bool, bytes: seq<byte>)
    requires ExportResult(objs, preserve) == Success(bytes)
    ensures ExportModel(objs, preserve).Success?
    ensures var s := SceneOf(bytes);
      && s.Success?
      && s.value.models == [ExportModel(objs, preserve).value.0]
      && s.value.instances == OriginInstances(1)
      && |s.value.palette| == 256
      && forall p :: 0 <= p < 256 ==> s.value.palette[p] == RgbaEntry(ExportModel(objs, preserve).value.1, p)
  {
    var mp := ExportModel(objs, preserve).value;
    WriteThenRead([mp.0], mp.1);
  }

  /**
   * Exporting an object that carries VOX metadata writes its palette back
   * where the reader finds it: entry p of the re-read palette is entry p of
   * the original one, for the first 255 entries.
   */
  lemma ExportPreservedReadBack(objs: seq<ExportObject>, preserve: bool, pal: seq<Rgba>, bytes: seq<byte>)
    requires LastPalette(objs, preserve) == Some(pal) && ExportResult(objs, preserve) == Success(bytes)
    ensures SceneOf(bytes).Success? && |SceneOf(bytes).value.palette| == 256
    ensures forall p :: 0 <= p < |pal| && p < 255 ==> SceneOf(bytes).value.palette[p] == pal[p]
  {
    ExportReadBack(objs, preserve, bytes);
    ExportPreservedSlots(objs, preserve, pal);
    var colors := ExportModel(objs, preserve).value.1;
    forall p | 0 <= p < |pal| && p < 255
      ensures SceneOf(bytes).value.palette[p] == pal[p]
    {
      assert SceneOf(bytes).value.palette[p] == RgbaEntry(colors, p) == colors[p + 1];
    }
  }

  // ---------------------------------------------------------------------
  // The export method

  lemma NormalizedSnoc(all: seq<Placed>, mins: (int, int, int), i: int)
    requires 0 <= i < |all|
    ensures Normalized(all[..i + 1], mins) == Normalized(all[..i], mins) + [Normalize(all[i], mins)]
  {
    assert all[..i + 1][..i] == all[..i];
  }

  lemma {:induction false} NormalizedPrefix(all: seq<Placed>, mins: (int, int, int), i: int)
    requires 0 <= i <= |all|
    ensures Normalized(all, mins)[..i] == Normalized(all[..i], mins)
    decreases |all|
  {
    if i < |all| {
      NormalizedPrefix(all[..|all| - 1], mins, i);
      assert all[..|all| - 1][..i] == all[..i];
    } else {
      assert all[..i] == all;
    }
  }

  /** One step of the preserved voxel loop, on the voxels kept so far. */
  lemma PreservedStep(all: seq<Placed>, mins: (int, int, int), i: int, vs: seq<Voxel>)
    requires 0 <= i < |all| && IndexedVoxels(Dedup(Normalized(all[..i], mins))) == Success(vs)
    ensures var p := Normalize(all[i], mins);
      var d := Dedup(Normalized(all[..i], mins));
      var d' := Dedup(Normalized(all[..i + 1], mins));
      && (Key(p) in KeySet(d) ==> d' == d)
      && (Key(p) !in KeySet(d) ==>
        && KeySet(d') == KeySet(d) + {Key(p)}
        && (p.paint.Color? ==> IndexedVoxels(d').Failure?)
        && (p.paint.Index? ==> IndexedVoxels(d') == Success(vs + [Voxel(p.x, p.y, p.z, ValidIndex(p.paint.i))])))
  {
    NormalizedSnoc(all, mins, i);
    var p := Normalize(all[i], mins);
    var d := Dedup(Normalized(all[..i], mins));
    assert Normalized(all[..i + 1], mins)[..i] == Normalized(all[..i], mins);
    if Key(p) !in KeySet(d) {
      assert Dedup(Normalized(all[..i + 1], mins)) == d + [p];
      assert (d + [p])[..|d|] == d;
    }
  }

  lemma PreservedFailsAt(all: seq<Placed>, mins: (int, int, int), i: int)
    requires 0 <= i < |all| && IndexedVoxels(Dedup(Normalized(all[..i + 1], mins))).Failure?
    ensures IndexedVoxels(Dedup(Normalized(all, mins))).Failure?
  {
    var ns := Normalized(all, mins);
    NormalizedPrefix(all, mins, i + 1);
    DedupExtends(ns, i + 1);
    var t :| Dedup(ns) == Dedup(ns[..i + 1]) + t;
    IndexedVoxelsFailsEarly(Dedup(ns[..i + 1]), t);
  }

  /** The collection loop: each object's metadata voxels when it preserves, else its voxelised ones. */
  method CollectVoxels(objs: seq<ExportObject>, preserve: bool) returns (all: seq<Placed>, original: Option<seq<Rgba>>)
    ensures all == Collected(objs, preserve) && original == LastPalette(objs, preserve)
  {
    all, original := [], None;
    for i := 0 to |objs|
      invariant all == Collected(objs[..i], preserve) && original == LastPalette(objs[..i], preserve)
    {
      assert objs[..i + 1][..i] == objs[..i];
      var o := objs[i];
      var before := all;
      if preserve {
        var metadata := GetVoxMetadata(o.obj);
        if metadata.Some? && metadata.value.palette != [] {
          var vs := metadata.value.voxels;
          for j := 0 to |vs|
            invariant all == before + FromMetadata(vs[..j])
          {
            assert vs[..j + 1][..j] == vs[..j];
            all := all + [Placed(vs[j].x, vs[j].y, vs[j].z, Index(vs[j].colorIndex))];
          }
          assert vs[..|vs|] == vs;
          original := Some(metadata.value.palette);
          continue;
        }
      }
      var vs := o.voxelized;
      for j := 0 to |vs|
        invariant all == before + FromVoxelized(vs[..j])
      {
        assert vs[..j + 1][..j] == vs[..j];
        all := all + [Placed(vs[j].x, vs[j].y, vs[j].z, Color(vs[j].color))];
      }
      assert vs[..|vs|] == vs;
    }
    assert objs[..|objs|] == objs;
  }

  /** The palette loop of the preserved path: set_color(i + 1, ...) for the entries with i < 255. */
  method SetPreservedPalette(palette: VoxPalette, pal: seq<Rgba>)
    requires palette.Valid()
    modifies palette
    ensures palette.Valid()
    ensures palette.colors == SetSlots(old(palette.colors), Take255(pal))
  {
    ghost var base := palette.colors;
    for i := 0 to |pal|
      invariant palette.Valid()
      invariant palette.colors == SetSlots(base, Take255(pal[..i]))
    {
      if i < 255 {
        assert Take255(pal[..i + 1]) == Take255(pal[..i]) + [pal[i]];
        var ok := palette.SetColor(i + 1, pal[i]);
      } else {
        assert Take255(pal[..i + 1]) == Take255(pal[..i]);
      }
    }
    assert pal[..|pal|] == pal;
  }

  /**
   * The voxel loop of the preserved path: the first voxel at each clamped
   * position is added with its index made valid; false where the loop would
   * raise TypeError.
   */
  method AddPreservedVoxels(model: VoxModel, all: seq<Placed>, mins: (int, int, int)) returns (ok: bool)
    requires all != [] && mins == Mins(all)
    requires model.Valid() && model.voxels == []
    modifies model
    ensures model.Valid()
    ensures ok <==> IndexedVoxels(Unique(all)).Success?
    ensures ok ==> model.Data() == old(model.Data()).(voxels := IndexedVoxels(Unique(all)).value)
  {
    var seen: set<(int, int, int)> := {};
    for i := 0 to |all|
      invariant model.Valid()
      invariant (model.sizeX, model.sizeY, model.sizeZ) == (old(model.sizeX), old(model.sizeY), old(model.sizeZ))
      invariant seen == KeySet(Dedup(Normalized(all[..i], mins)))
      invariant IndexedVoxels(Dedup(Normalized(all[..i], mins))) == Success(model.voxels)
    {
      PreservedStep(all, mins, i, model.voxels);
      var p := Normalize(all[i], mins);
      if Key(p) !in seen {
        seen := seen + {Key(p)};
        match p.paint
        case Color(_) =>
          PreservedFailsAt(all, mins, i);
          return false;
        case Index(ci) =>
          assert Addable(Voxel(p.x, p.y, p.z, ValidIndex(ci)));
          var added := model.AddVoxel(p.x, p.y, p.z, ValidIndex(ci));
      }
    }
    assert all[..|all|] == all;
    IndexedVoxelsSpec(Unique(all));
    ok := true;
  }

  /** The normalising loop, then the first-occurrence loop over the seen set. */
  method UniqueVoxels(all: seq<Placed>, mins: (int, int, int)) returns (unique: seq<Placed>)
    ensures unique == Dedup(Normalized(all, mins))
  {
    var normalized: seq<Placed> := [];
    for i := 0 to |all|
      invariant normalized == Normalized(all[..i], mins)
    {
      NormalizedSnoc(all, mins, i);
      var nx, ny, nz := Clamp(all[i].x - mins.0), Clamp(all[i].y - mins.1), Clamp(all[i].z - mins.2);
      normalized := normalized + [Placed(nx, ny, nz, all[i].paint)];
    }
    assert all[..|all|] == all;
    var seen: set<(int, int, int)> := {};
    unique := [];
    for i := 0 to |normalized|
      invariant unique == Dedup(normalized[..i]) && seen == KeySet(unique)
    {
      assert normalized[..i + 1][..i] == normalized[..i];
      var key := Key(normalized[i]);
      if key !in seen {
        seen := seen + {key};
        unique := unique + [normalized[i]];
        assert unique[..|unique| - 1] == Dedup(normalized[..i]);
      }
    }
    assert normalized[..|normalized|] == normalized;
  }

  /** The palette loop of the standard path: set_color(i + 1, r, g, b, 255) for every quantized colour. */
  method SetQuantizedPalette(palette: VoxPalette, colors: seq<Rgb>)
    requires palette.Valid() && |colors| <= 255
    modifies palette
    ensures palette.Valid()
    ensures palette.colors == SetSlots(old(palette.colors), Opaques(colors))
  {
    ghost var base := palette.colors;
    for i := 0 to |colors|
      invariant palette.Valid()
      invariant palette.colors == SetSlots(base, Opaques(colors[..i]))
    {
      assert colors[..i + 1][..i] == colors[..i];
      var ok := palette.SetColor(i + 1, SimpleVox.Opaque(colors[i]));
    }
    assert colors[..|colors|] == colors;
  }

  /** The voxel loop of the standard path: each kept voxel added with color_map.get(color, 1). */
  method AddQuantizedVoxels(model: VoxModel, unique: seq<Placed>, index: map<Rgb, int>)
    requires AllColor(unique) && model.Valid() && model.voxels == []
    requires forall i :: 0 <= i < |unique| ==> Addable(Voxel(unique[i].x, unique[i].y, unique[i].z, MapGet(index, unique[i].paint.c)))
    modifies model
    ensures model.Valid()
    ensures model.Data() == old(model.Data()).(voxels := MappedVoxels(unique, index))
  {
    for i := 0 to |unique|
      invariant model.Valid()
      invariant model.Data() == old(model.Data()).(voxels := MappedVoxels(unique[..i], index))
    {
      assert unique[..i + 1][..i] == unique[..i];
      assert AllColor(unique[..i + 1]) by {
        forall p | p in unique[..i + 1]
          ensures p.paint.Color?
        {
          assert p in unique;
        }
      }
      assert unique[i] in unique;
      var v := unique[i];
      var added := model.AddVoxel(v.x, v.y, v.z, MapGet(index, v.paint.c));
    }
    assert unique[..|unique|] == unique;
  }

  /** Every kept voxel of the standard path passes add_voxel's checks. */
  lemma StandardAddable(all: seq<Placed>)
    requires all != [] && AllColor(Unique(all))
    ensures var d := Unique(all);
      forall i :: 0 <= i < |d| ==> Addable(Voxel(d[i].x, d[i].y, d[i].z, MapGet(StandardQuantized(d).index, d[i].paint.c)))
  {
    var d := Unique(all);
    var q := StandardQuantized(d);
    forall i | 0 <= i < |d|
      ensures Addable(Voxel(d[i].x, d[i].y, d[i].z, MapGet(q.index, d[i].paint.c)))
    {
      UniqueInGrid(all, d[i]);
      MappedVoxelsAt(d, q.index, i);
      StandardVoxel(d, DefaultPalette(), i);
    }
  }

  /** The preserved path on a fresh model and the writer's palette; false where it raises TypeError. */
  method PreservedPath(palette: VoxPalette, model: VoxModel, all: seq<Placed>, pal: seq<Rgba>) returns (ok: bool)
    requires all != [] && palette.Valid() && model.Valid() && model.voxels == []
    requires (model.sizeX, model.sizeY, model.sizeZ) == Sizes(all)
    modifies palette, model
    ensures palette.Valid() && model.Valid()
    ensures ok <==> PreservedExport(all, pal, old(palette.colors)).Success?
    ensures ok ==> (model.Data(), palette.colors) == PreservedExport(all, pal, old(palette.colors)).value
  {
    SetPreservedPalette(palette, pal);
    ok := AddPreservedVoxels(model, all, Mins(all));
  }

  /** The standard path on a fresh model and the writer's palette. */
  method StandardPath(palette: VoxPalette, model: VoxModel, all: seq<Placed>)
    requires all != [] && AllColor(Unique(all)) && palette.Valid() && model.Valid() && model.voxels == []
    requires (model.sizeX, model.sizeY, model.sizeZ) == Sizes(all)
    modifies palette, model
    ensures palette.Valid() && model.Valid()
    ensures (model.Data(), palette.colors) == StandardExport(all, old(palette.colors))
  {
    var unique := UniqueVoxels(all, Mins(all));
    var colors := ColorsOf(unique);
    var q := QuantizeColors(colors, 255, ColorOrder(colors));
    QuantizeBounded(colors, 255, ColorOrder(colors));
    SetQuantizedPalette(palette, q.value.palette);
    StandardAddable(all);
    AddQuantizedVoxels(model, unique, q.value.index);
  }

  /** A model of the box's size and the writer's palette, filled by the path the stored palette selects. */
  method BuildModel(writer: VoxWriter, all: seq<Placed>, original: Option<seq<Rgba>>) returns (model: VoxModel, ok: bool)
    requires all != [] && (original.None? ==> AllColor(Unique(all)))
    requires writer.Valid() && writer.models == []
    modifies writer.palette
    ensures writer.Valid() && model.Valid() && writer.models == []
    ensures original.Some? ==>
      && (ok <==> PreservedExport(all, original.value, old(writer.palette.colors)).Success?)
      && (ok ==> PreservedExport(all, original.value, old(writer.palette.colors)).value == (model.Data(), writer.palette.colors))
    ensures original.None? ==> ok && StandardExport(all, old(writer.palette.colors)) == (model.Data(), writer.palette.colors)
  {
    var size := Sizes(all);
    model := new VoxModel(size.0, size.1, size.2);
    ok := true;
    if original.Some? {
      ok := PreservedPath(writer.palette, model, all, original.value);
    } else {
      StandardPath(writer.palette, model, all);
    }
  }

  /** Builds the model and palette for the collected voxels in a writer without models, and writes them. */
  method BuildAndWrite(writer: VoxWriter, all: seq<Placed>, original: Option<seq<Rgba>>) returns (r: Result<seq<byte>, ExportError>)
    requires all != [] && (original.None? ==> AllColor(Unique(all)))
    requires writer.Valid() && writer.models == []
    modifies writer, writer.palette
    ensures r == Written(ModelOf(all, original, old(writer.palette.colors)))
  {
    ghost var base := writer.palette.colors;
    var model, ok := BuildModel(writer, all, original);
    if original.Some? {
      PreservedFailure(all, original.value, base);
    }
    if !ok {
      r := Failure(ExportError.TypeError);
    } else {
      var written := WriteModel(writer, model);
      r := if written.Failure? then Failure(ExportError.StructError) else Success(written.value);
    }
  }

  /** export: collect, build the model and palette, write. */
  method Export(objs: seq<ExportObject>, preserve: bool) returns (r: Result<seq<byte>, ExportError>)
    ensures r == ExportResult(objs, preserve)
  {
    var all, original := CollectVoxels(objs, preserve);
    if all == [] {
      r := Failure(ExportError.NoVoxels);
    } else {
      StandardColored(objs, preserve);
      var writer := new VoxWriter();
      r := BuildAndWrite(writer, all, original);
    }
  }
}
