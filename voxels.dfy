/**
 * Values shared by the writer, the reader, the exporter and the importer:
 * voxels, colours, a model's size and voxel list, and MagicaVoxel's default
 * palette (256 words in AABBGGRR order).
 */
module Voxels {
  import opened Bytes

  type u32 = n: int | 0 <= n < 0x1_0000_0000

  /** (x, y, z, color_index) as both the writer and the reader keep it. */
  datatype Voxel = Voxel(x: int, y: int, z: int, colorIndex: int)

  /**
   * Colours as the Python code keeps them: tuples of ints, not limited to
   * 0..255 until struct packs them into bytes.
   */
  datatype Rgb = Rgb(r: int, g: int, b: int)

  datatype Rgba = Rgba(r: int, g: int, b: int, a: int)

  /** Every channel fits struct's 'B' format, 0..255. */
  predicate ByteRgba(c: Rgba) {
    0 <= c.r < 256 && 0 <= c.g < 256 && 0 <= c.b < 256 && 0 <= c.a < 256
  }

  /** A model's dimensions and its voxels in insertion (file) order. */
  datatype Model = Model(sizeX: int, sizeY: int, sizeZ: int, voxels: seq<Voxel>)

  /**
   * The default MagicaVoxel palette, one AABBGGRR word per slot k, eight
   * slots to a line.
   */
  function DefaultWord(k: int): int
    requires 0 <= k < 256
  {
    if k < 8 then [0x00000000, 0xffffffff, 0xffccffff, 0xff99ffff, 0xff66ffff, 0xff33ffff, 0xff00ffff, 0xffffccff][k]
    else if k < 16 then [0xffccccff, 0xff99ccff, 0xff66ccff, 0xff33ccff, 0xff00ccff, 0xffff99ff, 0xffcc99ff, 0xff9999ff][k - 8]
    else if k < 24 then [0xff6699ff, 0xff3399ff, 0xff0099ff, 0xffff66ff, 0xffcc66ff, 0xff9966ff, 0xff6666ff, 0xff3366ff][k - 16]
    else if k < 32 then [0xff0066ff, 0xffff33ff, 0xffcc33ff, 0xff9933ff, 0xff6633ff, 0xff3333ff, 0xff0033ff, 0xffff00ff][k - 24]
    else if k < 40 then [0xffcc00ff, 0xff9900ff, 0xff6600ff, 0xff3300ff, 0xff0000ff, 0xffffffcc, 0xffccffcc, 0xff99ffcc][k - 32]
    else if k < 48 then [0xff66ffcc, 0xff33ffcc, 0xff00ffcc, 0xffffcccc, 0xffcccccc, 0xff99cccc, 0xff66cccc, 0xff33cccc][k - 40]
    else if k < 56 then [0xff00cccc, 0xffff99cc, 0xffcc99cc, 0xff9999cc, 0xff6699cc, 0xff3399cc, 0xff0099cc, 0xffff66cc][k - 48]
    else if k < 64 then [0xffcc66cc, 0xff9966cc, 0xff6666cc, 0xff3366cc, 0xff0066cc, 0xffff33cc, 0xffcc33cc, 0xff9933cc][k - 56]
    else if k < 72 then [0xff6633cc, 0xff3333cc, 0xff0033cc, 0xffff00cc, 0xffcc00cc, 0xff9900cc, 0xff6600cc, 0xff3300cc][k - 64]
    else if k < 80 then [0xff0000cc, 0xffffff99, 0xffccff99, 0xff99ff99, 0xff66ff99, 0xff33ff99, 0xff00ff99, 0xffffcc99][k - 72]
    else if k < 88 then [0xffcccc99, 0xff99cc99, 0xff66cc99, 0xff33cc99, 0xff00cc99, 0xffff9999, 0xffcc9999, 0xff999999][k - 80]
    else if k < 96 then [0xff669999, 0xff339999, 0xff009999, 0xffff6699, 0xffcc6699, 0xff996699, 0xff666699, 0xff336699][k - 88]
    else if k < 104 then [0xff006699, 0xffff3399, 0xffcc3399, 0xff993399, 0xff663399, 0xff333399, 0xff003399, 0xffff0099][k - 96]
    else if k < 112 then [0xffcc0099, 0xff990099, 0xff660099, 0xff330099, 0xff000099, 0xffffff66, 0xffccff66, 0xff99ff66][k - 104]
    else if k < 120 then [0xff66ff66, 0xff33ff66, 0xff00ff66, 0xffffcc66, 0xffcccc66, 0xff99cc66, 0xff66cc66, 0xff33cc66][k - 112]
    else if k < 128 then [0xff00cc66, 0xffff9966, 0xffcc9966, 0xff999966, 0xff669966, 0xff339966, 0xff009966, 0xffff6666][k - 120]
    else if k < 136 then [0xffcc6666, 0xff996666, 0xff666666, 0xff336666, 0xff006666, 0xffff3366, 0xffcc3366, 0xff993366][k - 128]
    else if k < 144 then [0xff663366, 0xff333366, 0xff003366, 0xffff0066, 0xffcc0066, 0xff990066, 0xff660066, 0xff330066][k - 136]
    else if k < 152 then [0xff000066, 0xffffff33, 0xffccff33, 0xff99ff33, 0xff66ff33, 0xff33ff33, 0xff00ff33, 0xffffcc33][k - 144]
    else if k < 160 then [0xffcccc33, 0xff99cc33, 0xff66cc33, 0xff33cc33, 0xff00cc33, 0xffff9933, 0xffcc9933, 0xff999933][k - 152]
    else if k < 168 then [0xff669933, 0xff339933, 0xff009933, 0xffff6633, 0xffcc6633, 0xff996633, 0xff666633, 0xff336633][k - 160]
    else if k < 176 then [0xff006633, 0xffff3333, 0xffcc3333, 0xff993333, 0xff663333, 0xff333333, 0xff003333, 0xffff0033][k - 168]
    else if k < 184 then [0xffcc0033, 0xff990033, 0xff660033, 0xff330033, 0xff000033, 0xffffff00, 0xffccff00, 0xff99ff00][k - 176]
    else if k < 192 then [0xff66ff00, 0xff33ff00, 0xff00ff00, 0xffffcc00, 0xffcccc00, 0xff99cc00, 0xff66cc00, 0xff33cc00][k - 184]
    else if k < 200 then [0xff00cc00, 0xffff9900, 0xffcc9900, 0xff999900, 0xff669900, 0xff339900, 0xff009900, 0xffff6600][k - 192]
    else if k < 208 then [0xffcc6600, 0xff996600, 0xff666600, 0xff336600, 0xff006600, 0xffff3300, 0xffcc3300, 0xff993300][k - 200]
    else if k < 216 then [0xff663300, 0xff333300, 0xff003300, 0xffff0000, 0xffcc0000, 0xff990000, 0xff660000, 0xff330000][k - 208]
    else if k < 224 then [0xff0000ee, 0xff0000dd, 0xff0000bb, 0xff0000aa, 0xff000088, 0xff000077, 0xff000055, 0xff000044][k - 216]
    else if k < 232 then [0xff000022, 0xff000011, 0xff00ee00, 0xff00dd00, 0xff00bb00, 0xff00aa00, 0xff008800, 0xff007700][k - 224]
    else if k < 240 then [0xff005500, 0xff004400, 0xff002200, 0xff001100, 0xffee0000, 0xffdd0000, 0xffbb0000, 0xffaa0000][k - 232]
    else if k < 248 then [0xff880000, 0xff770000, 0xff550000, 0xff440000, 0xff220000, 0xff110000, 0xffeeeeee, 0xffdddddd][k - 240]
    else [0xffbbbbbb, 0xffaaaaaa, 0xff888888, 0xff777777, 0xff555555, 0xff444444, 0xff222222, 0xff111111][k - 248]
  }

  /**
   * One AABBGGRR word split into (r, g, b, a) by shifts and masks: r is
   * the low byte, a the byte above bit 24. On a non-negative word, / and %
   * by powers of two are Python's >> and & 0xFF.
   */
  function DecodeAabbggrr(v: int): (c: Rgba)
    ensures ByteRgba(c)
  {
    Rgba(v % 256, (v / 256) % 256, (v / 65536) % 256, (v / 16777216) % 256)
  }

  function EncodeAabbggrr(c: Rgba): u32
    requires ByteRgba(c)
  {
    U32Of([c.r, c.g, c.b, c.a])
  }

  /** Packing a colour into a word and splitting it again gives the colour back. */
  lemma AabbggrrRoundTrip(c: Rgba)
    requires ByteRgba(c)
    ensures DecodeAabbggrr(EncodeAabbggrr(c)) == c
  {
    var b := [c.r, c.g, c.b, c.a];
    U32Injective(b);
    var n := U32Of(b);
    assert n / 16777216 < 256;
  }

  /** A word below 2^32 is the packing of the colour it splits into. */
  lemma AabbggrrWords(v: int)
    requires 0 <= v < TWO_32
    ensures EncodeAabbggrr(DecodeAabbggrr(v)) == v
  {
    U32RoundTrip(v);
    assert v / 16777216 < 256;
  }

  /** The default palette: slot k holds the k-th table word, split into its channels. */
  function DefaultPalette(): (p: seq<Rgba>)
    ensures |p| == 256
  {
    seq(256, k requires 0 <= k < 256 => DecodeAabbggrr(DefaultWord(k)))
  }

  /** The decoding loop both default-palette builders run over the table. */
  method DecodeDefaultTable() returns (colors: seq<Rgba>)
    ensures colors == DefaultPalette()
  {
    colors := [];
    for k := 0 to 256
      invariant |colors| == k
      invariant forall j :: 0 <= j < k ==> colors[j] == DecodeAabbggrr(DefaultWord(j))
    {
      var w := DefaultWord(k);
      colors := colors + [Rgba(w % 256, (w / 256) % 256, (w / 65536) % 256, (w / 16777216) % 256)];
    }
  }

  /** Slot 0 of the default palette is transparent black, slot 1 opaque white. */
  lemma DefaultPaletteFirstSlots()
    ensures DefaultPalette()[0] == Rgba(0, 0, 0, 0)
    ensures DefaultPalette()[1] == Rgba(255, 255, 255, 255)
  {
    assert DefaultWord(0) == 0 && DefaultWord(1) == 0xffffffff;
  }

  datatype Channel = Red | Green | Blue

  function Chan(c: Rgb, k: Channel): int {
    match k
    case Red => c.r
    case Green => c.g
    case Blue => c.b
  }

  /** sum(c[k] for c in cs) */
  function ChannelSum(cs: seq<Rgb>, k: Channel): int {
    if cs == [] then 0 else ChannelSum(cs[..|cs| - 1], k) + Chan(cs[|cs| - 1], k)
  }

  /** min(c[k] for c in cs) */
  function ChannelMin(cs: seq<Rgb>, k: Channel): int
    requires cs != []
  {
    if |cs| == 1 then Chan(cs[0], k)
    else
      var m := ChannelMin(cs[..|cs| - 1], k);
      var last := Chan(cs[|cs| - 1], k);
      if last < m then last else m
  }

  /** max(c[k] for c in cs) */
  function ChannelMax(cs: seq<Rgb>, k: Channel): int
    requires cs != []
  {
    if |cs| == 1 then Chan(cs[0], k)
    else
      var m := ChannelMax(cs[..|cs| - 1], k);
      var last := Chan(cs[|cs| - 1], k);
      if last > m then last else m
  }

  /** The minimum is one of the values and no value is below it. */
  lemma {:induction false} ChannelMinIsMin(cs: seq<Rgb>, k: Channel)
    requires cs != []
    ensures forall i :: 0 <= i < |cs| ==> ChannelMin(cs, k) <= Chan(cs[i], k)
    ensures exists i :: 0 <= i < |cs| && ChannelMin(cs, k) == Chan(cs[i], k)
  {
    if |cs| == 1 {
      assert ChannelMin(cs, k) == Chan(cs[0], k);
    } else {
      var init := cs[..|cs| - 1];
      ChannelMinIsMin(init, k);
      var j :| 0 <= j < |init| && ChannelMin(init, k) == Chan(init[j], k);
      if Chan(cs[|cs| - 1], k) >= ChannelMin(init, k) {
        assert ChannelMin(cs, k) == Chan(cs[j], k);
      } else {
        assert ChannelMin(cs, k) == Chan(cs[|cs| - 1], k);
      }
      forall i | 0 <= i < |cs| - 1
        ensures ChannelMin(cs, k) <= Chan(cs[i], k)
      {
        assert cs[i] == init[i];
      }
    }
  }

  /** The maximum is one of the values and no value is above it. */
  lemma {:induction false} ChannelMaxIsMax(cs: seq<Rgb>, k: Channel)
    requires cs != []
    ensures forall i :: 0 <= i < |cs| ==> Chan(cs[i], k) <= ChannelMax(cs, k)
    ensures exists i :: 0 <= i < |cs| && ChannelMax(cs, k) == Chan(cs[i], k)
  {
    if |cs| == 1 {
      assert ChannelMax(cs, k) == Chan(cs[0], k);
    } else {
      var init := cs[..|cs| - 1];
      ChannelMaxIsMax(init, k);
      var j :| 0 <= j < |init| && ChannelMax(init, k) == Chan(init[j], k);
      if Chan(cs[|cs| - 1], k) <= ChannelMax(init, k) {
        assert ChannelMax(cs, k) == Chan(cs[j], k);
      } else {
        assert ChannelMax(cs, k) == Chan(cs[|cs| - 1], k);
      }
      forall i | 0 <= i < |cs| - 1
        ensures Chan(cs[i], k) <= ChannelMax(cs, k)
      {
        assert cs[i] == init[i];
      }
    }
  }

  predicate ChannelWithin(cs: seq<Rgb>, k: Channel, lo: int, hi: int) {
    forall i :: 0 <= i < |cs| ==> lo <= Chan(cs[i], k) <= hi
  }

  lemma {:induction false} ChannelSumBounds(cs: seq<Rgb>, k: Channel, lo: int, hi: int)
    requires ChannelWithin(cs, k, lo, hi)
    ensures |cs| * lo <= ChannelSum(cs, k) <= |cs| * hi
  {
    if cs != [] {
      var n := |cs|;
      var init := cs[..n - 1];
      assert ChannelWithin(init, k, lo, hi) by {
        forall i | 0 <= i < |init|
          ensures lo <= Chan(init[i], k) <= hi
        {
          assert init[i] == cs[i];
        }
      }
      ChannelSumBounds(init, k, lo, hi);
      assert lo <= Chan(cs[n - 1], k) <= hi;
      MulSucc(n, lo);
      MulSucc(n, hi);
    }
  }

  lemma MulSucc(n: int, a: int)
    ensures n * a == (n - 1) * a + a
  {
  }

  lemma MulMonotone(a: int, b: int, n: int)
    requires a <= b && 0 <= n
    ensures a * n <= b * n
  {
    var d := b - a;
    assert b * n == a * n + d * n;
  }

  lemma DivWithin(s: int, n: int, lo: int, hi: int)
    requires n > 0 && n * lo <= s <= n * hi
    ensures lo <= s / n <= hi
  {
    var q, r := s / n, s % n;
    assert s == q * n + r && 0 <= r < n;
    if q > hi {
      MulMonotone(hi + 1, q, n);
    }
    if q < lo {
      MulMonotone(q + 1, lo, n);
    }
  }

  /** The channel-wise floor average (sum // len) of a non-empty colour list. */
  function Average(cs: seq<Rgb>): Rgb
    requires cs != []
  {
    var n := |cs|;
    Rgb(ChannelSum(cs, Red) / n, ChannelSum(cs, Green) / n, ChannelSum(cs, Blue) / n)
  }

  /** A floor average stays inside any per-channel bounds its members respect. */
  lemma AverageWithin(cs: seq<Rgb>, k: Channel, lo: int, hi: int)
    requires cs != [] && ChannelWithin(cs, k, lo, hi)
    ensures lo <= Chan(Average(cs), k) <= hi
  {
    ChannelSumBounds(cs, k, lo, hi);
    DivWithin(ChannelSum(cs, k), |cs|, lo, hi);
    assert Chan(Average(cs), k) == ChannelSum(cs, k) / |cs|;
  }

  /**
   * Squared Euclidean distance between two colours. The exporter compares
   * math.sqrt of this value; sqrt is monotone, so both orders agree.
   */
  function DistanceSq(a: Rgb, b: Rgb): nat {
    var dr, dg, db := a.r - b.r, a.g - b.g, a.b - b.b;
    dr * dr + dg * dg + db * db
  }

  /**
   * k is the position of the nearest candidate to c, and the first such
   * position: a scan that replaces its best only on a strictly smaller
   * distance keeps the earliest of equally near candidates.
   */
  predicate IsFirstNearest(c: Rgb, cands: seq<Rgb>, k: int) {
    && 0 <= k < |cands|
    && (forall j :: 0 <= j < |cands| ==> DistanceSq(c, cands[k]) <= DistanceSq(c, cands[j]))
    && (forall j :: 0 <= j < k ==> DistanceSq(c, cands[k]) < DistanceSq(c, cands[j]))
  }

  function FirstNearest(c: Rgb, cands: seq<Rgb>): (k: nat)
    requires cands != []
    ensures k < |cands|
  {
    if |cands| == 1 then 0
    else
      var k := FirstNearest(c, cands[..|cands| - 1]);
      if DistanceSq(c, cands[|cands| - 1]) < DistanceSq(c, cands[k]) then |cands| - 1 else k
  }

  /** The scan finds the nearest candidate, and the first of equally near ones. */
  lemma {:induction false} FirstNearestIsFirst(c: Rgb, cands: seq<Rgb>)
    requires cands != []
    ensures IsFirstNearest(c, cands, FirstNearest(c, cands))
    decreases |cands|
  {
    if |cands| > 1 {
      var init := cands[..|cands| - 1];
      FirstNearestIsFirst(c, init);
      var k := FirstNearest(c, init);
      assert forall j :: 0 <= j < |init| ==> init[j] == cands[j];
    }
  }

  lemma FirstNearestUnique(c: Rgb, cands: seq<Rgb>, k1: int, k2: int)
    requires IsFirstNearest(c, cands, k1) && IsFirstNearest(c, cands, k2)
    ensures k1 == k2
  {
    var d1, d2 := DistanceSq(c, cands[k1]), DistanceSq(c, cands[k2]);
    assert d1 <= d2 && d2 <= d1;
  }

  /** The best-so-far scan over candidates, in order, with a strict comparison. */
  method FindNearest(c: Rgb, cands: seq<Rgb>) returns (best: nat)
    requires cands != []
    ensures IsFirstNearest(c, cands, best)
  {
    best := 0;
    var bestDist := 0;
    // i == 0 stands for best_dist == float('inf'): the first candidate always wins.
    for i := 0 to |cands|
      invariant i == 0 ==> best == 0
      invariant i > 0 ==> best < i && bestDist == DistanceSq(c, cands[best])
      invariant forall j :: 0 <= j < i ==> bestDist <= DistanceSq(c, cands[j])
      invariant forall j :: 0 <= j < best ==> bestDist < DistanceSq(c, cands[j])
    {
      var d := DistanceSq(c, cands[i]);
      if i == 0 || d < bestDist {
        best, bestDist := i, d;
      }
    }
  }
}
