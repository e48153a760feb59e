/**
 * create_simple_vox: one model built from (x, y, z, (r, g, b)) voxels. The
 * palette is filled as colours are first seen: the first 255 distinct
 * colours get indices 1..255 in order of appearance, and every later new
 * colour reuses the index of the nearest colour seen before it.
 */
module SimpleVox {
  import opened Wrappers
  import opened Bytes
  import opened Voxels
  import opened Writer

  /** (x, y, z, (r, g, b)) as the caller passes it. */
  datatype SimpleVoxel = SimpleVoxel(x: int, y: int, z: int, color: Rgb)

  /** ValueError for no voxels or a voxel add_voxel refuses; struct.error from write. */
  datatype CreateError = NoVoxels | VoxelOutOfRange | PackError

  /** A colour written to the palette: fully opaque. */
  function Opaque(c: Rgb): Rgba {
    Rgba(c.r, c.g, c.b, 255)
  }

  function Colors(vs: seq<SimpleVoxel>): (cs: seq<Rgb>)
    ensures |cs| == |vs|
    ensures forall i :: 0 <= i < |vs| ==> cs[i] == vs[i].color
  {
    seq(|vs|, i requires 0 <= i < |vs| => vs[i].color)
  }

  predicate Unique(d: seq<Rgb>) {
    forall i, j :: 0 <= i < j < |d| ==> d[i] != d[j]
  }

  /** The distinct colours of cs, in order of first appearance. */
  function Distinct(cs: seq<Rgb>): (d: seq<Rgb>)
    ensures Unique(d)
    ensures forall c :: c in d <==> c in cs
    ensures |d| <= |cs|
  {
    if cs == [] then []
    else
      var d := Distinct(cs[..|cs| - 1]);
      assert cs == cs[..|cs| - 1] + [cs[|cs| - 1]];
      if cs[|cs| - 1] in d then d else d + [cs[|cs| - 1]]
  }

  /** cs.index(c): the position where c first appears. */
  function FirstIndex(cs: seq<Rgb>, c: Rgb): (i: nat)
    requires c in cs
    ensures i < |cs| && cs[i] == c
    ensures forall j :: 0 <= j < i ==> cs[j] != c
  {
    if cs[0] == c then 0 else FirstIndex(cs[1..], c) + 1
  }

  /** A colour already met keeps its first position when more colours follow. */
  lemma FirstIndexSnoc(cs: seq<Rgb>, x: Rgb, c: Rgb)
    requires c in cs
    ensures FirstIndex(cs + [x], c) == FirstIndex(cs, c)
  {
    var a, b := FirstIndex(cs, c), FirstIndex(cs + [x], c);
    assert (cs + [x])[a] == c;
    assert b <= a;
    assert cs[b] == (cs + [x])[b];
  }

  /** The distinct colours are listed in order of first appearance. */
  lemma {:induction false} DistinctOrder(cs: seq<Rgb>)
    ensures forall i, j :: 0 <= i < j < |Distinct(cs)| ==> FirstIndex(cs, Distinct(cs)[i]) < FirstIndex(cs, Distinct(cs)[j])
  {
    if cs != [] {
      var init, x := cs[..|cs| - 1], cs[|cs| - 1];
      assert cs == init + [x];
      var d0, d := Distinct(init), Distinct(cs);
      DistinctOrder(init);
      forall i | 0 <= i < |d0|
        ensures d[i] == d0[i] && FirstIndex(cs, d0[i]) == FirstIndex(init, d0[i])
      {
        FirstIndexSnoc(init, x, d0[i]);
      }
      if x !in d0 {
        assert d == d0 + [x];
        assert FirstIndex(cs, x) == |init|;
      }
    }
  }

  /** The keys of an ordered colour table, in insertion order. */
  function Keys(t: seq<(Rgb, int)>): (k: seq<Rgb>)
    ensures |k| == |t|
    ensures forall i :: 0 <= i < |t| ==> k[i] == t[i].0
  {
    seq(|t|, i requires 0 <= i < |t| => t[i].0)
  }

  /**
   * The index color_to_index gets for the last of the distinct colours p
   * (listed in order of first appearance): the next free index while
   * fewer than 255 colours came before it, and otherwise the index of the
   * first nearest colour before it.
   */
  function AllocIndex(p: seq<Rgb>): (idx: int)
    requires p != []
    ensures 1 <= idx <= 255
    decreases |p|
  {
    var n := |p| - 1;
    if n < 255 then n + 1 else AllocIndex(p[..FirstNearest(p[n], p[..n]) + 1])
  }

  /** The color_to_index table after the distinct colours d were met, in insertion order. */
  function AllocTable(d: seq<Rgb>): (t: seq<(Rgb, int)>)
    ensures |t| == |d|
    ensures forall i :: 0 <= i < |t| ==> t[i].0 == d[i]
  {
    seq(|d|, i requires 0 <= i < |d| => (d[i], AllocIndex(d[..i + 1])))
  }

  /** A dict lookup in the table; keys are unique, so the search direction does not matter. */
  function Lookup(t: seq<(Rgb, int)>, c: Rgb): (r: Option<int>)
    ensures r.Some? <==> c in Keys(t)
  {
    if t == [] then None
    else if t[|t| - 1].0 == c then Some(t[|t| - 1].1)
    else
      var init := t[..|t| - 1];
      assert Keys(t) == Keys(init) + [t[|t| - 1].0];
      Lookup(init, c)
  }

  /** The palette index create_simple_vox gives colour c, one of the colours cs. */
  function ColorIndex(cs: seq<Rgb>, c: Rgb): int
    requires c in cs
  {
    var t := AllocTable(Distinct(cs));
    assert Keys(t) == Distinct(cs);
    Lookup(t, c).value
  }

  /** Slots 1..n hold the first n distinct colours (n at most 255); the rest keep the default palette. */
  function SimplePalette(d: seq<Rgb>): (p: seq<Rgba>)
    ensures |p| == 256
  {
    seq(256, k requires 0 <= k < 256 => if 1 <= k <= |d| then Opaque(d[k - 1]) else DefaultPalette()[k])
  }

  /** The voxels of the model, each with its colour's index. */
  function ModelVoxels(vs: seq<SimpleVoxel>): (r: seq<Voxel>)
    ensures |r| == |vs|
  {
    var cs := Colors(vs);
    seq(|vs|, j requires 0 <= j < |vs| => Voxel(vs[j].x, vs[j].y, vs[j].z, ColorIndex(cs, cs[j])))
  }

  datatype Axis = X | Y | Z

  function Coord(v: SimpleVoxel, a: Axis): int {
    match a
    case X => v.x
    case Y => v.y
    case Z => v.z
  }

  /** max(v[axis] for v in voxels): the largest coordinate, reached by some voxel. */
  function MaxCoord(vs: seq<SimpleVoxel>, a: Axis): (m: int)
    requires vs != []
    ensures forall i :: 0 <= i < |vs| ==> Coord(vs[i], a) <= m
    ensures exists i :: 0 <= i < |vs| && Coord(vs[i], a) == m
  {
    if |vs| == 1 then Coord(vs[0], a)
    else
      var m := MaxCoord(vs[..|vs| - 1], a);
      var last := Coord(vs[|vs| - 1], a);
      assert Coord(vs[..|vs| - 1][0], a) <= m;
      if last > m then last else m
  }

  /** The given size, or the bounding box max + 1 on each axis. */
  function SimpleSize(vs: seq<SimpleVoxel>, size: Option<(int, int, int)>): (int, int, int)
    requires vs != []
  {
    match size
    case Some(s) => s
    case None => (MaxCoord(vs, X) + 1, MaxCoord(vs, Y) + 1, MaxCoord(vs, Z) + 1)
  }

  predicate InGrid(v: SimpleVoxel) {
    InByte(v.x) && InByte(v.y) && InByte(v.z)
  }

  predicate AllInGrid(vs: seq<SimpleVoxel>) {
    forall i :: 0 <= i < |vs| ==> InGrid(vs[i])
  }

  /** What create_simple_vox writes, or the error it raises. */
  function CreateSimpleVoxResult(vs: seq<SimpleVoxel>, size: Option<(int, int, int)>): Result<seq<byte>, CreateError> {
    if vs == [] then Failure(NoVoxels)
    else if !AllInGrid(vs) then Failure(VoxelOutOfRange)
    else
      var s := SimpleSize(vs, size);
      var w := WriteResult([Model(s.0, s.1, s.2, ModelVoxels(vs))], SimplePalette(Distinct(Colors(vs))));
      if w.Success? then Success(w.value) else Failure(PackError)
  }

  /**
   * The palette create_simple_vox leaves packs exactly when each of the
   * first 255 distinct colours has every channel in 0..255; later colours
   * never reach the palette.
   */
  lemma SimplePaletteFits(d: seq<Rgb>)
    ensures PaletteFits(SimplePalette(d)) <==> forall j :: 0 <= j < |d| && j < 255 ==> ByteRgba(Opaque(d[j]))
  {
    var p := SimplePalette(d);
    PaletteFitsSlots(p);
    forall j | 0 <= j < |d| && j < 255
      ensures p[j + 1] == Opaque(d[j])
    {
    }
    forall k | 1 <= k < 256 && k > |d|
      ensures ByteRgba(p[k])
    {
      assert p[k] == DefaultPalette()[k];
      assert DefaultPalette()[k] == DecodeAabbggrr(DefaultWord(k));
    }
  }

  /** A colour outside 0..255 among the first 255 distinct ones makes the write raise struct.error. */
  lemma CreateSimpleVoxBadColor(vs: seq<SimpleVoxel>, size: Option<(int, int, int)>, j: int)
    requires vs != [] && AllInGrid(vs)
    requires 0 <= j < |Distinct(Colors(vs))| && j < 255 && !ByteRgba(Opaque(Distinct(Colors(vs))[j]))
    ensures CreateSimpleVoxResult(vs, size) == Failure(PackError)
  {
    SimplePaletteFits(Distinct(Colors(vs)));
  }

  lemma PrefixSnoc<T>(s: seq<T>, i: int)
    requires 0 <= i < |s|
    ensures s[..i + 1] == s[..i] + [s[i]]
  {
  }

  lemma PrefixOfPrefix<T>(s: seq<T>, i: int, k: int)
    requires 0 <= k <= i <= |s|
    ensures s[..i][..k] == s[..k]
  {
  }

  lemma DistinctStep(cs: seq<Rgb>, x: Rgb)
    ensures Distinct(cs + [x]) == if x in Distinct(cs) then Distinct(cs) else Distinct(cs) + [x]
  {
    assert (cs + [x])[..|cs|] == cs;
  }

  lemma AllocTableStep(d: seq<Rgb>, x: Rgb)
    ensures AllocTable(d + [x]) == AllocTable(d) + [(x, AllocIndex(d + [x]))]
  {
    var t, t' := AllocTable(d), AllocTable(d + [x]);
    forall i | 0 <= i < |d|
      ensures t'[i] == t[i]
    {
      assert (d + [x])[..i + 1] == d[..i + 1];
    }
    assert (d + [x])[..|d| + 1] == d + [x];
    assert t' == t + [(x, AllocIndex(d + [x]))];
  }

  /** With the table full, a new colour takes the index of the first nearest colour already met. */
  lemma AllocIndexNearest(d: seq<Rgb>, x: Rgb)
    requires |d| >= 255
    ensures AllocIndex(d + [x]) == AllocIndex(d[..FirstNearest(x, d) + 1])
  {
    var p := d + [x];
    assert p[..|d|] == d && p[|d|] == x;
    assert p[..FirstNearest(x, d) + 1] == d[..FirstNearest(x, d) + 1];
  }

  /** Adding a colour leaves the index of every earlier colour as it was. */
  lemma ColorIndexExtend(cs: seq<Rgb>, x: Rgb, c: Rgb)
    requires c in cs
    ensures c in cs + [x]
    ensures ColorIndex(cs + [x], c) == ColorIndex(cs, c)
  {
    var d := Distinct(cs);
    DistinctStep(cs, x);
    if x !in d {
      AllocTableStep(d, x);
      var t := AllocTable(d + [x]);
      assert t[..|t| - 1] == AllocTable(d);
      assert t[|t| - 1].0 != c;
    }
  }

  /** A colour met for the first time gets the entry just appended. */
  lemma ColorIndexNew(cs: seq<Rgb>, x: Rgb)
    requires x !in cs
    ensures ColorIndex(cs + [x], x) == AllocIndex(Distinct(cs) + [x])
  {
    DistinctStep(cs, x);
    AllocTableStep(Distinct(cs), x);
  }

  predicate UniqueKeys(t: seq<(Rgb, int)>) {
    forall a, b :: 0 <= a < b < |t| ==> t[a].0 != t[b].0
  }

  lemma {:induction false} LookupUnique(t: seq<(Rgb, int)>, i: int)
    requires UniqueKeys(t)
    requires 0 <= i < |t|
    ensures Lookup(t, t[i].0) == Some(t[i].1)
  {
    if i < |t| - 1 {
      var init := t[..|t| - 1];
      assert init[i] == t[i];
      LookupUnique(init, i);
    }
  }

  /** The index of the j-th distinct colour is the j-th table entry. */
  lemma ColorIndexOfDistinct(cs: seq<Rgb>, j: int)
    requires 0 <= j < |Distinct(cs)|
    ensures Distinct(cs)[j] in cs
    ensures ColorIndex(cs, Distinct(cs)[j]) == AllocIndex(Distinct(cs)[..j + 1])
  {
    var d := Distinct(cs);
    assert d[j] in d;
    var t := AllocTable(d);
    assert Keys(t) == d;
    assert UniqueKeys(t);
    LookupUnique(t, j);
  }

  /** Every voxel gets an index add_voxel accepts. */
  lemma SimpleIndexRange(cs: seq<Rgb>, c: Rgb)
    requires c in cs
    ensures 1 <= ColorIndex(cs, c) <= 255
  {
    var d := Distinct(cs);
    assert c in d;
    var j :| 0 <= j < |d| && d[j] == c;
    ColorIndexOfDistinct(cs, j);
  }

  /**
   * The first 255 distinct colours keep their exact value: colour j gets
   * index j + 1, and palette slot j + 1 holds it, opaque.
   */
  lemma FirstColorsKept(cs: seq<Rgb>, j: int)
    requires 0 <= j < |Distinct(cs)| && j < 255
    ensures Distinct(cs)[j] in cs
    ensures ColorIndex(cs, Distinct(cs)[j]) == j + 1
    ensures SimplePalette(Distinct(cs))[j + 1] == Opaque(Distinct(cs)[j])
  {
    ColorIndexOfDistinct(cs, j);
  }

  /**
   * A distinct colour past the 255th shares the index of the first
   * nearest distinct colour met before it.
   */
  lemma LaterColorsShareNearest(cs: seq<Rgb>, j: int)
    requires 255 <= j < |Distinct(cs)|
    ensures Distinct(cs)[j] in cs
    ensures Distinct(cs)[FirstNearest(Distinct(cs)[j], Distinct(cs)[..j])] in cs
    ensures var d := Distinct(cs);
      ColorIndex(cs, d[j]) == ColorIndex(cs, d[FirstNearest(d[j], d[..j])])
  {
    var d := Distinct(cs);
    var p := d[..j];
    var k := FirstNearest(d[j], p);
    assert p[k] == d[k];
    ColorIndexOfDistinct(cs, j);
    ColorIndexOfDistinct(cs, k);
    PrefixSnoc(d, j);
    PrefixOfPrefix(d, j, k + 1);
    calc {
      ColorIndex(cs, d[j]);
      AllocIndex(p + [d[j]]);
      { AllocIndexNearest(p, d[j]); }
      AllocIndex(p[..k + 1]);
      ColorIndex(cs, d[k]);
    }
  }

  /** While indices remain, a new colour fills the next slot, opaque. */
  lemma PaletteStep(d: seq<Rgb>, c: Rgb)
    requires |d| < 255
    ensures SimplePalette(d)[|d| + 1 := Opaque(c)] == SimplePalette(d + [c])
  {
  }

  /** Once the indices run out, a new colour leaves the palette alone. */
  lemma PaletteFull(d: seq<Rgb>, c: Rgb)
    requires |d| >= 255
    ensures SimplePalette(d) == SimplePalette(d + [c])
  {
  }

  lemma ModelVoxelsStep(vs: seq<SimpleVoxel>, i: int)
    requires 0 <= i < |vs|
    ensures vs[i].color in Colors(vs[..i + 1])
    ensures ModelVoxels(vs[..i + 1])
         == ModelVoxels(vs[..i]) + [Voxel(vs[i].x, vs[i].y, vs[i].z, ColorIndex(Colors(vs[..i + 1]), vs[i].color))]
  {
    var cs, cs' := Colors(vs[..i]), Colors(vs[..i + 1]);
    assert cs' == cs + [vs[i].color];
    forall j | 0 <= j < i
      ensures ColorIndex(cs', cs'[j]) == ColorIndex(cs, cs[j])
    {
      ColorIndexExtend(cs, vs[i].color, cs[j]);
    }
  }

  lemma AllInGridStep(vs: seq<SimpleVoxel>, i: int)
    requires 0 <= i < |vs|
    ensures AllInGrid(vs[..i + 1]) <==> AllInGrid(vs[..i]) && InGrid(vs[i])
    ensures !InGrid(vs[i]) ==> !AllInGrid(vs)
  {
    assert vs[..i + 1][i] == vs[i];
  }

  /** The entry of the first nearest colour is the index a colour met after the table filled up gets. */
  lemma NearestEntry(d: seq<Rgb>, c: Rgb, k: int)
    requires |d| >= 255 && k == FirstNearest(c, d)
    ensures AllocTable(d)[k].1 == AllocIndex(d + [c])
  {
    var t := AllocTable(d);
    assert t[k] == (d[k], AllocIndex(d[..k + 1]));
    AllocIndexNearest(d, c);
  }

  lemma ColorsPrefix(vs: seq<SimpleVoxel>, n: int)
    requires 0 <= n <= |vs|
    ensures Colors(vs[..n]) == Colors(vs)[..n]
  {
  }

  /**
   * One step of the colour loop: the colour c, met after the colours
   * before, gets its color_to_index entry (and, while indices remain, its
   * palette slot); index is the entry the voxel is added with.
   */
  method AssignColor(table: seq<(Rgb, int)>, nextIndex: int, palette: VoxPalette, ghost before: seq<Rgb>, c: Rgb)
    returns (table': seq<(Rgb, int)>, nextIndex': int, index: int)
    requires palette.Valid()
    requires table == AllocTable(Distinct(before))
    requires nextIndex == if |table| < 255 then |table| + 1 else 256
    requires palette.colors == SimplePalette(Distinct(before))
    modifies palette
    ensures palette.Valid()
    ensures table' == AllocTable(Distinct(before + [c]))
    ensures nextIndex' == if |table'| < 255 then |table'| + 1 else 256
    ensures palette.colors == SimplePalette(Distinct(before + [c]))
    ensures c in before + [c] && index == ColorIndex(before + [c], c)
    ensures 1 <= index <= 255
  {
    var d := Distinct(before);
    DistinctStep(before, c);
    assert Keys(table) == d;
    table', nextIndex' := table, nextIndex;
    if Lookup(table, c).None? {
      assert Distinct(before + [c]) == d + [c];
      AllocTableStep(d, c);
      if nextIndex > 255 {
        var k := FindNearest(c, Keys(table));
        FirstNearestIsFirst(c, d);
        FirstNearestUnique(c, Keys(table), k, FirstNearest(c, d));
        NearestEntry(d, c, k);
        table' := table + [(c, table[k].1)];
        PaletteFull(d, c);
      } else {
        assert nextIndex == AllocIndex(d + [c]);
        table' := table + [(c, nextIndex)];
        var _ := palette.SetColor(nextIndex, Opaque(c));
        PaletteStep(d, c);
        nextIndex' := nextIndex + 1;
      }
      ColorIndexNew(before, c);
    } else {
      assert c in before;
      assert Distinct(before + [c]) == d;
      ColorIndexExtend(before, c, c);
    }
    index := Lookup(table', c).value;
    SimpleIndexRange(before + [c], c);
  }

  /** add_voxel for voxel i, with the index its colour was given. */
  method AddSimpleVoxel(model: VoxModel, vs: seq<SimpleVoxel>, i: int, index: int, s: (int, int, int))
    returns (ok: bool)
    requires model.Valid() && 0 <= i < |vs|
    requires model.Data() == Model(s.0, s.1, s.2, ModelVoxels(vs[..i]))
    requires vs[i].color in Colors(vs[..i + 1]) && index == ColorIndex(Colors(vs[..i + 1]), vs[i].color)
    modifies model
    ensures model.Valid()
    ensures ok <==> InGrid(vs[i])
    ensures ok ==> model.Data() == Model(s.0, s.1, s.2, ModelVoxels(vs[..i + 1]))
  {
    SimpleIndexRange(Colors(vs[..i + 1]), vs[i].color);
    ModelVoxelsStep(vs, i);
    ok := model.AddVoxel(vs[i].x, vs[i].y, vs[i].z, index);
  }

  /**
   * The loop over the voxels: each colour gets its index (and palette
   * slot), each voxel is added; ok is false at the first voxel add_voxel
   * refuses.
   */
  method AddVoxels(voxels: seq<SimpleVoxel>, s: (int, int, int), palette: VoxPalette, model: VoxModel)
    returns (ok: bool)
    requires palette.Valid() && palette.colors == DefaultPalette()
    requires model.Valid() && model.Data() == Model(s.0, s.1, s.2, [])
    modifies palette, model
    ensures palette.Valid() && model.Valid()
    ensures ok <==> AllInGrid(voxels)
    ensures ok ==> palette.colors == SimplePalette(Distinct(Colors(voxels)))
    ensures ok ==> model.Data() == Model(s.0, s.1, s.2, ModelVoxels(voxels))
  {
    var table: seq<(Rgb, int)> := [];
    var nextIndex := 1;
    ghost var cs := Colors(voxels);
    for i := 0 to |voxels|
      invariant palette.Valid() && model.Valid()
      invariant table == AllocTable(Distinct(cs[..i]))
      invariant nextIndex == if |table| < 255 then |table| + 1 else 256
      invariant palette.colors == SimplePalette(Distinct(cs[..i]))
      invariant model.Data() == Model(s.0, s.1, s.2, ModelVoxels(voxels[..i]))
      invariant AllInGrid(voxels[..i])
    {
      PrefixSnoc(cs, i);
      var index;
      table, nextIndex, index := AssignColor(table, nextIndex, palette, cs[..i], voxels[i].color);
      ColorsPrefix(voxels, i + 1);
      ok := AddSimpleVoxel(model, voxels, i, index, s);
      AllInGridStep(voxels, i);
      if !ok {
        return;
      }
    }
    assert voxels[..|voxels|] == voxels;
    assert cs[..|voxels|] == cs;
    ok := true;
  }

  method CreateSimpleVox(voxels: seq<SimpleVoxel>, size: Option<(int, int, int)>)
    returns (r: Result<seq<byte>, CreateError>)
    ensures r == CreateSimpleVoxResult(voxels, size)
  {
    if voxels == [] {
      return Failure(NoVoxels);
    }
    var s := SimpleSize(voxels, size);
    var writer := new VoxWriter();
    var model := new VoxModel(s.0, s.1, s.2);
    var ok := AddVoxels(voxels, s, writer.palette, model);
    if !ok {
      return Failure(VoxelOutOfRange);
    }
    var w := WriteModel(writer, model);
    r := if w.Success? then Success(w.value) else Failure(PackError);
  }
}
