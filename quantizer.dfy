/**
 * quantize_colors: colours that fit are kept as they are; otherwise
 * median_cut splits the colour box into at most max_colors boxes and
 * every colour is mapped to the nearest box average.
 */
module Quantizer {
  import opened Wrappers
  import opened Voxels

  /** The visible grey used where there is no colour at all. */
  const GREY: Rgb := Rgb(180, 180, 180)

  /**
   * list(set(colors)): every colour of `colors` exactly once. Python does
   * not fix the order, so the order is whatever the caller passes.
   */
  ghost predicate IsUniqueList(unique: seq<Rgb>, colors: seq<Rgb>) {
    && (forall i, j :: 0 <= i < j < |unique| ==> unique[i] != unique[j])
    && (forall c :: c in unique <==> c in colors)
  }

  // ---------------------------------------------------------------------
  // sorted(box, key=lambda c: c[k]), a stable sort

  predicate SortedBy(s: seq<Rgb>, k: Channel) {
    forall i, j :: 0 <= i < j < |s| ==> Chan(s[i], k) <= Chan(s[j], k)
  }

  /** Inserts x after every element whose key is not larger: x came last, so ties keep their order. */
  function InsertBy(x: Rgb, t: seq<Rgb>, k: Channel): (r: seq<Rgb>)
    ensures multiset(r) == multiset(t) + multiset{x}
  {
    if t == [] || Chan(x, k) < Chan(t[0], k) then [x] + t
    else
      assert t == [t[0]] + t[1..];
      [t[0]] + InsertBy(x, t[1..], k)
  }

  function SortBy(s: seq<Rgb>, k: Channel): (r: seq<Rgb>)
    ensures multiset(r) == multiset(s)
    ensures |r| == |s|
  {
    if s == [] then []
    else
      assert s == s[..|s| - 1] + [s[|s| - 1]];
      var r := InsertBy(s[|s| - 1], SortBy(s[..|s| - 1], k), k);
      assert |r| == |multiset(r)|;
      r
  }

  lemma {:induction false} InsertSorted(x: Rgb, t: seq<Rgb>, k: Channel)
    requires SortedBy(t, k)
    ensures SortedBy(InsertBy(x, t, k), k)
    decreases |t|
  {
    if t == [] || Chan(x, k) < Chan(t[0], k) {
      forall i | 0 <= i < |t|
        ensures Chan(x, k) <= Chan(t[i], k)
      {
        assert Chan(t[0], k) <= Chan(t[i], k);
      }
      ConsSorted(x, t, k);
    } else {
      InsertSorted(x, t[1..], k);
      var r := InsertBy(x, t[1..], k);
      forall i | 0 <= i < |r|
        ensures Chan(t[0], k) <= Chan(r[i], k)
      {
        assert r[i] in multiset(r);
        if r[i] != x {
          assert r[i] in t[1..];
        }
      }
      ConsSorted(t[0], r, k);
    }
  }

  /** An element no larger than any of a sorted list goes in front of it. */
  lemma ConsSorted(a: Rgb, r: seq<Rgb>, k: Channel)
    requires SortedBy(r, k) && forall i :: 0 <= i < |r| ==> Chan(a, k) <= Chan(r[i], k)
    ensures SortedBy([a] + r, k)
  {
    forall i, j | 0 <= i < j < |[a] + r|
      ensures Chan(([a] + r)[i], k) <= Chan(([a] + r)[j], k)
    {
      assert ([a] + r)[j] == r[j - 1];
      if i > 0 {
        assert ([a] + r)[i] == r[i - 1];
      }
    }
  }

  lemma {:induction false} SortBySorted(s: seq<Rgb>, k: Channel)
    ensures SortedBy(SortBy(s, k), k)
    decreases |s|
  {
    if s != [] {
      SortBySorted(s[..|s| - 1], k);
      InsertSorted(s[|s| - 1], SortBy(s[..|s| - 1], k), k);
    }
  }

  /** The elements of s whose key k is v, in their order in s. */
  function KeyRun(s: seq<Rgb>, k: Channel, v: int): (r: seq<Rgb>)
    ensures forall i :: 0 <= i < |r| ==> Chan(r[i], k) == v
  {
    if s == [] then []
    else (if Chan(s[0], k) == v then [s[0]] else []) + KeyRun(s[1..], k, v)
  }

  lemma {:induction false} KeyRunAppend(a: seq<Rgb>, b: seq<Rgb>, k: Channel, v: int)
    ensures KeyRun(a + b, k, v) == KeyRun(a, k, v) + KeyRun(b, k, v)
  {
    if a != [] {
      var h := if Chan(a[0], k) == v then [a[0]] else [];
      assert (a + b)[0] == a[0] && (a + b)[1..] == a[1..] + b;
      assert KeyRun(a + b, k, v) == h + KeyRun(a[1..] + b, k, v);
      KeyRunAppend(a[1..], b, k, v);
      assert KeyRun(a, k, v) == h + KeyRun(a[1..], k, v);
    } else {
      assert a + b == b;
    }
  }

  lemma {:induction false} KeyRunNone(s: seq<Rgb>, k: Channel, v: int)
    requires forall i :: 0 <= i < |s| ==> Chan(s[i], k) != v
    ensures KeyRun(s, k, v) == []
  {
    if s != [] {
      KeyRunNone(s[1..], k, v);
    }
  }

  /** Inserting x into a sorted list puts it after every element with its key. */
  lemma {:induction false} InsertStable(x: Rgb, t: seq<Rgb>, k: Channel, v: int)
    requires SortedBy(t, k)
    ensures KeyRun(InsertBy(x, t, k), k, v) == KeyRun(t, k, v) + KeyRun([x], k, v)
    decreases |t|
  {
    if t == [] || Chan(x, k) < Chan(t[0], k) {
      InsertFront(x, t, k, v);
    } else {
      SortedTail(t, k);
      InsertStable(x, t[1..], k, v);
      InsertHead(x, t, k);
      RunBehind(t, InsertBy(x, t[1..], k), x, k, v);
    }
  }

  lemma SortedTail(t: seq<Rgb>, k: Channel)
    requires t != [] && SortedBy(t, k)
    ensures SortedBy(t[1..], k)
  {
    forall i, j | 0 <= i < j < |t| - 1
      ensures Chan(t[1..][i], k) <= Chan(t[1..][j], k)
    {
      assert t[1..][i] == t[i + 1] && t[1..][j] == t[j + 1];
    }
  }

  /** A list put behind the head of t: the head's run comes first. */
  lemma RunBehind(t: seq<Rgb>, r: seq<Rgb>, x: Rgb, k: Channel, v: int)
    requires t != [] && KeyRun(r, k, v) == KeyRun(t[1..], k, v) + KeyRun([x], k, v)
    ensures KeyRun([t[0]] + r, k, v) == KeyRun(t, k, v) + KeyRun([x], k, v)
  {
    KeyRunAppend([t[0]], r, k, v);
    KeyRunCons(t, k, v);
    AppendAssoc(KeyRun([t[0]], k, v), KeyRun(t[1..], k, v), KeyRun([x], k, v));
  }

  lemma AppendAssoc(a: seq<Rgb>, b: seq<Rgb>, c: seq<Rgb>)
    ensures a + (b + c) == a + b + c
  {
  }

  lemma InsertHead(x: Rgb, t: seq<Rgb>, k: Channel)
    requires t != [] && Chan(t[0], k) <= Chan(x, k)
    ensures InsertBy(x, t, k) == [t[0]] + InsertBy(x, t[1..], k)
  {
  }

  lemma KeyRunCons(t: seq<Rgb>, k: Channel, v: int)
    requires t != []
    ensures KeyRun(t, k, v) == KeyRun([t[0]], k, v) + KeyRun(t[1..], k, v)
  {
    assert t == [t[0]] + t[1..];
    KeyRunAppend([t[0]], t[1..], k, v);
  }

  lemma InsertFront(x: Rgb, t: seq<Rgb>, k: Channel, v: int)
    requires SortedBy(t, k) && (t == [] || Chan(x, k) < Chan(t[0], k))
    ensures KeyRun(InsertBy(x, t, k), k, v) == KeyRun(t, k, v) + KeyRun([x], k, v)
  {
    assert InsertBy(x, t, k) == [x] + t;
    KeyRunAppend([x], t, k, v);
    if Chan(x, k) == v {
      InsertBefore(x, t, k);
    } else {
      assert KeyRun([x], k, v) == [] + KeyRun([x][1..], k, v);
    }
  }

  /** Before every element of a sorted list with a larger key, the key of x does not occur in it. */
  lemma InsertBefore(x: Rgb, t: seq<Rgb>, k: Channel)
    requires SortedBy(t, k) && (t == [] || Chan(x, k) < Chan(t[0], k))
    ensures KeyRun(t, k, Chan(x, k)) == []
  {
    forall i | 0 <= i < |t|
      ensures Chan(t[i], k) != Chan(x, k)
    {
      assert Chan(t[0], k) <= Chan(t[i], k);
    }
    KeyRunNone(t, k, Chan(x, k));
  }

  /**
   * sorted is stable: the colours sharing one key value come out in the
   * order they went in.
   */
  lemma {:induction false} SortByStable(s: seq<Rgb>, k: Channel, v: int)
    ensures KeyRun(SortBy(s, k), k, v) == KeyRun(s, k, v)
    decreases |s|
  {
    if s != [] {
      var init, x := s[..|s| - 1], s[|s| - 1];
      var sorted := SortBy(init, k);
      SortBySnoc(s, k);
      SortBySorted(init, k);
      InsertStable(x, sorted, k, v);
      SortByStable(init, k, v);
      KeyRunSnoc(s, k, v);
    }
  }

  lemma SortBySnoc(s: seq<Rgb>, k: Channel)
    requires s != []
    ensures SortBy(s, k) == InsertBy(s[|s| - 1], SortBy(s[..|s| - 1], k), k)
  {
  }

  lemma KeyRunSnoc(s: seq<Rgb>, k: Channel, v: int)
    requires s != []
    ensures KeyRun(s, k, v) == KeyRun(s[..|s| - 1], k, v) + KeyRun([s[|s| - 1]], k, v)
  {
    assert s == s[..|s| - 1] + [s[|s| - 1]];
    KeyRunAppend(s[..|s| - 1], [s[|s| - 1]], k, v);
  }

  /** A rearrangement keeps every per-channel bound its elements respect. */
  lemma PermutedWithin(s: seq<Rgb>, t: seq<Rgb>, k: Channel, lo: int, hi: int)
    requires multiset(s) == multiset(t) && ChannelWithin(t, k, lo, hi)
    ensures ChannelWithin(s, k, lo, hi)
  {
    forall i | 0 <= i < |s|
      ensures lo <= Chan(s[i], k) <= hi
    {
      assert s[i] in multiset(t);
      var j :| 0 <= j < |t| && t[j] == s[i];
    }
  }

  // ---------------------------------------------------------------------
  // median_cut

  function Pow2(n: nat): (p: nat)
    ensures p >= 1
  {
    if n == 0 then 1 else 2 * Pow2(n - 1)
  }

  /** int(math.log2(n)) for n >= 1: the largest d with 2^d <= n. */
  function Log2Floor(n: nat): (d: nat)
    requires n >= 1
    ensures Pow2(d) <= n < Pow2(d + 1)
  {
    if n < 2 then 0 else 1 + Log2Floor(n / 2)
  }

  function Range(box: seq<Rgb>, k: Channel): int
    requires box != []
  {
    ChannelMax(box, k) - ChannelMin(box, k)
  }

  /** The channel with the largest range, red before green before blue on ties. */
  function SplitChannel(box: seq<Rgb>): Channel
    requires box != []
  {
    var r, g, b := Range(box, Red), Range(box, Green), Range(box, Blue);
    if r >= g && r >= b then Red else if g >= b then Green else Blue
  }

  /** The box sorted along its widest channel. */
  function SortedBox(box: seq<Rgb>): (r: seq<Rgb>)
    requires box != []
    ensures |r| == |box|
  {
    SortBy(box, SplitChannel(box))
  }

  /** The first len // 2 colours of the sorted box. */
  function LowerHalf(box: seq<Rgb>): seq<Rgb>
    requires box != []
  {
    SortedBox(box)[..|box| / 2]
  }

  /** The rest of the sorted box. */
  function UpperHalf(box: seq<Rgb>): seq<Rgb>
    requires box != []
  {
    SortedBox(box)[|box| / 2..]
  }

  /**
   * median_cut(box, depth): the floor average of the box at depth 0 or for
   * at most one colour (grey for none); otherwise the box sorted along its
   * widest channel, cut at len // 2, each half cut one level less deep.
   */
  function MedianCut(box: seq<Rgb>, depth: nat): (r: seq<Rgb>)
    ensures 1 <= |r| <= Pow2(depth)
    decreases depth
  {
    if depth == 0 || |box| <= 1 then
      if box == [] then [GREY] else [Average(box)]
    else
      MedianCut(LowerHalf(box), depth - 1) + MedianCut(UpperHalf(box), depth - 1)
  }

  /** Both halves of the sorted box respect the bounds of the box. */
  lemma HalvesWithin(box: seq<Rgb>, k: Channel, lo: int, hi: int)
    requires box != [] && ChannelWithin(box, k, lo, hi)
    ensures UpperHalf(box) != [] && (|box| > 1 ==> LowerHalf(box) != [])
    ensures ChannelWithin(LowerHalf(box), k, lo, hi)
    ensures ChannelWithin(UpperHalf(box), k, lo, hi)
  {
    var sorted := SortedBox(box);
    var mid := |box| / 2;
    PermutedWithin(sorted, box, k, lo, hi);
    SliceWithin(sorted, 0, mid, k, lo, hi);
    SliceWithin(sorted, mid, |sorted|, k, lo, hi);
    assert sorted[..mid] == sorted[0..mid];
    assert sorted[mid..] == sorted[mid..|sorted|];
  }

  lemma SliceWithin(s: seq<Rgb>, a: int, b: int, k: Channel, lo: int, hi: int)
    requires 0 <= a <= b <= |s| && ChannelWithin(s, k, lo, hi)
    ensures ChannelWithin(s[a..b], k, lo, hi)
  {
    forall i | 0 <= i < b - a
      ensures lo <= Chan(s[a..b][i], k) <= hi
    {
      assert s[a..b][i] == s[a + i];
    }
  }

  lemma ConcatWithin(a: seq<Rgb>, b: seq<Rgb>, k: Channel, lo: int, hi: int)
    requires ChannelWithin(a, k, lo, hi) && ChannelWithin(b, k, lo, hi)
    ensures ChannelWithin(a + b, k, lo, hi)
  {
    forall i | 0 <= i < |a + b|
      ensures lo <= Chan((a + b)[i], k) <= hi
    {
      if i >= |a| {
        assert (a + b)[i] == b[i - |a|];
      }
    }
  }

  /** Every colour median_cut returns for a non-empty box lies within any per-channel bounds of the box. */
  lemma {:induction false} MedianCutWithin(box: seq<Rgb>, depth: nat, k: Channel, lo: int, hi: int)
    requires box != [] && ChannelWithin(box, k, lo, hi)
    ensures ChannelWithin(MedianCut(box, depth), k, lo, hi)
    decreases depth, 2
  {
    if depth == 0 || |box| <= 1 {
      LeafWithin(box, depth, k, lo, hi);
    } else {
      CutWithin(box, depth, k, lo, hi);
    }
  }

  /** A box that is cut is within the bounds, as both its halves' cuts are. */
  lemma {:induction false} CutWithin(box: seq<Rgb>, depth: nat, k: Channel, lo: int, hi: int)
    requires depth > 0 && |box| > 1 && ChannelWithin(box, k, lo, hi)
    ensures ChannelWithin(MedianCut(box, depth), k, lo, hi)
    decreases depth, 1
  {
    HalvesCutWithin(box, depth, k, lo, hi);
    var a, b := MedianCut(LowerHalf(box), depth - 1), MedianCut(UpperHalf(box), depth - 1);
    ConcatWithin(a, b, k, lo, hi);
    CutUnfold(box, depth);
  }

  /** The cuts of both halves of a box are within the bounds of the box. */
  lemma {:induction false} HalvesCutWithin(box: seq<Rgb>, depth: nat, k: Channel, lo: int, hi: int)
    requires depth > 0 && |box| > 1 && ChannelWithin(box, k, lo, hi)
    ensures ChannelWithin(MedianCut(LowerHalf(box), depth - 1), k, lo, hi)
    ensures ChannelWithin(MedianCut(UpperHalf(box), depth - 1), k, lo, hi)
    decreases depth, 0
  {
    var lower, upper, d: nat := LowerHalf(box), UpperHalf(box), depth - 1;
    HalvesWithin(box, k, lo, hi);
    MedianCutWithin(lower, d, k, lo, hi);
    MedianCutWithin(upper, d, k, lo, hi);
  }

  /** A box that is not cut more is its floor average. */
  lemma LeafWithin(box: seq<Rgb>, depth: nat, k: Channel, lo: int, hi: int)
    requires box != [] && ChannelWithin(box, k, lo, hi) && (depth == 0 || |box| <= 1)
    ensures ChannelWithin(MedianCut(box, depth), k, lo, hi)
  {
    AverageWithin(box, k, lo, hi);
    assert MedianCut(box, depth) == [Average(box)];
  }

  /** A box that is cut is the cut of its lower half followed by that of its upper half. */
  lemma CutUnfold(box: seq<Rgb>, depth: nat)
    requires depth > 0 && |box| > 1
    ensures MedianCut(box, depth) == MedianCut(LowerHalf(box), depth - 1) + MedianCut(UpperHalf(box), depth - 1)
  {
  }

  // ---------------------------------------------------------------------
  // quantize_colors

  /** The palette and the colour-to-index dict quantize_colors returns. */
  datatype Quantized = Quantized(palette: seq<Rgb>, index: map<Rgb, int>)

  /** math.log2 raises for a max_colors below 1 when the colours do not fit. */
  datatype QuantizeError = MathDomain

  /** {c: i + 1 for i, c in enumerate(unique)} */
  function PositionMap(unique: seq<Rgb>): (m: map<Rgb, int>)
    requires forall i, j :: 0 <= i < j < |unique| ==> unique[i] != unique[j]
  {
    map i | 0 <= i < |unique| :: unique[i] := i + 1
  }

  /** Each colour's 1-based index of its nearest palette entry, the first on ties. */
  function NearestMap(unique: seq<Rgb>, palette: seq<Rgb>): map<Rgb, int>
    requires palette != []
    decreases |unique|
  {
    if unique == [] then map[]
    else
      var c := unique[|unique| - 1];
      NearestMap(unique[..|unique| - 1], palette)[c := FirstNearest(c, palette) + 1]
  }

  /** Every colour of the list is mapped to its first nearest entry, 1-based. */
  lemma {:induction false} NearestMapAt(unique: seq<Rgb>, palette: seq<Rgb>, c: Rgb)
    requires palette != [] && c in unique
    ensures c in NearestMap(unique, palette) && NearestMap(unique, palette)[c] == FirstNearest(c, palette) + 1
    decreases |unique|
  {
    if c != unique[|unique| - 1] {
      var init := unique[..|unique| - 1];
      assert c in init by {
        var i :| 0 <= i < |unique| && unique[i] == c;
        assert init[i] == c;
      }
      NearestMapAt(init, palette, c);
    }
  }

  /** palette[:max_colors] for max_colors >= 1. */
  function Take(s: seq<Rgb>, n: nat): (r: seq<Rgb>)
  {
    if n < |s| then s[..n] else s
  }

  /** quantize_colors(colors, max_colors) when list(set(colors)) comes out as `unique`. */
  function Quantize(colors: seq<Rgb>, maxColors: int, unique: seq<Rgb>): Result<Quantized, QuantizeError>
    requires IsUniqueList(unique, colors)
  {
    if colors == [] then Success(Quantized([GREY], map[GREY := 1]))
    else if |unique| <= maxColors then Success(Quantized(unique, PositionMap(unique)))
    else if maxColors < 1 then Failure(MathDomain)
    else
      var palette := Take(MedianCut(unique, Log2Floor(maxColors)), maxColors);
      Success(Quantized(palette, NearestMap(unique, palette)))
  }

  /** The mapping loop: for each colour, the best-so-far scan over the palette. */
  method NearestIndices(unique: seq<Rgb>, palette: seq<Rgb>) returns (index: map<Rgb, int>)
    requires palette != []
    ensures index == NearestMap(unique, palette)
  {
    index := map[];
    for i := 0 to |unique|
      invariant index == NearestMap(unique[..i], palette)
    {
      var best := FindNearest(unique[i], palette);
      FirstNearestIsFirst(unique[i], palette);
      FirstNearestUnique(unique[i], palette, best, FirstNearest(unique[i], palette));
      NearestMapSnoc(unique, i, palette);
      index := index[unique[i] := best + 1];
    }
    assert unique[..|unique|] == unique;
  }

  lemma NearestMapSnoc(unique: seq<Rgb>, i: int, palette: seq<Rgb>)
    requires 0 <= i < |unique| && palette != []
    ensures NearestMap(unique[..i + 1], palette) == NearestMap(unique[..i], palette)[unique[i] := FirstNearest(unique[i], palette) + 1]
  {
    assert unique[..i + 1][..i] == unique[..i];
  }

  method QuantizeColors(colors: seq<Rgb>, maxColors: int, unique: seq<Rgb>) returns (r: Result<Quantized, QuantizeError>)
    requires IsUniqueList(unique, colors)
    ensures r == Quantize(colors, maxColors, unique)
  {
    if colors == [] {
      return Success(Quantized([GREY], map[GREY := 1]));
    }
    if |unique| <= maxColors {
      return Success(Quantized(unique, PositionMap(unique)));
    }
    if maxColors < 1 {
      return Failure(MathDomain);
    }
    var depth := Log2Floor(maxColors);
    var palette := Take(MedianCut(unique, depth), maxColors);
    var index := NearestIndices(unique, palette);
    r := Success(Quantized(palette, index));
  }

  // ---------------------------------------------------------------------
  // Properties

  /** No colours: the palette is the single grey, and grey maps to 1. */
  lemma QuantizeNoColors(unique: seq<Rgb>)
    requires IsUniqueList(unique, [])
    ensures Quantize([], 255, unique) == Success(Quantized([GREY], map[GREY := 1]))
  {
  }

  /** Colours that fit are the palette as they are, each mapped to its 1-based position. */
  lemma QuantizeFits(colors: seq<Rgb>, maxColors: int, unique: seq<Rgb>)
    requires IsUniqueList(unique, colors) && colors != [] && |unique| <= maxColors
    ensures Quantize(colors, maxColors, unique).Success?
    ensures Quantize(colors, maxColors, unique).value.palette == unique
    ensures forall i :: 0 <= i < |unique| ==> Quantize(colors, maxColors, unique).value.index[unique[i]] == i + 1
  {
  }

  /** Too many colours: at most max_colors entries, each inside the channel bounds of all the colours. */
  lemma QuantizeReduces(colors: seq<Rgb>, maxColors: int, unique: seq<Rgb>, k: Channel, lo: int, hi: int)
    requires IsUniqueList(unique, colors) && |unique| > maxColors >= 1
    requires ChannelWithin(colors, k, lo, hi)
    ensures Quantize(colors, maxColors, unique).Success?
    ensures 1 <= |Quantize(colors, maxColors, unique).value.palette| <= maxColors
    ensures ChannelWithin(Quantize(colors, maxColors, unique).value.palette, k, lo, hi)
  {
    var depth := Log2Floor(maxColors);
    assert unique[0] in colors;
    UniqueWithin(colors, unique, k, lo, hi);
    MedianCutWithin(unique, depth, k, lo, hi);
    var cut := MedianCut(unique, depth);
    TakeWithin(cut, maxColors, k, lo, hi);
    assert Quantize(colors, maxColors, unique).value.palette == Take(cut, maxColors);
  }

  /** Whatever path quantize_colors takes, its palette stays inside the channel bounds of the colours. */
  lemma QuantizeWithin(colors: seq<Rgb>, maxColors: int, unique: seq<Rgb>, k: Channel, lo: int, hi: int)
    requires IsUniqueList(unique, colors) && colors != [] && maxColors >= 1
    requires ChannelWithin(colors, k, lo, hi)
    ensures Quantize(colors, maxColors, unique).Success?
    ensures ChannelWithin(Quantize(colors, maxColors, unique).value.palette, k, lo, hi)
  {
    if |unique| <= maxColors {
      QuantizeFits(colors, maxColors, unique);
      UniqueWithin(colors, unique, k, lo, hi);
    } else {
      QuantizeReduces(colors, maxColors, unique, k, lo, hi);
    }
  }

  lemma TakeWithin(s: seq<Rgb>, n: nat, k: Channel, lo: int, hi: int)
    requires ChannelWithin(s, k, lo, hi)
    ensures ChannelWithin(Take(s, n), k, lo, hi)
  {
    if n < |s| {
      SliceWithin(s, 0, n, k, lo, hi);
      assert s[..n] == s[0..n];
    }
  }

  lemma UniqueWithin(colors: seq<Rgb>, unique: seq<Rgb>, k: Channel, lo: int, hi: int)
    requires IsUniqueList(unique, colors) && ChannelWithin(colors, k, lo, hi)
    ensures ChannelWithin(unique, k, lo, hi)
  {
    forall i | 0 <= i < |unique|
      ensures lo <= Chan(unique[i], k) <= hi
    {
      assert unique[i] in colors;
    }
  }

  /** With room for at least one colour, quantize_colors succeeds with between 1 and max_colors entries. */
  lemma QuantizeBounded(colors: seq<Rgb>, maxColors: int, unique: seq<Rgb>)
    requires IsUniqueList(unique, colors) && maxColors >= 1
    ensures Quantize(colors, maxColors, unique).Success?
    ensures 1 <= |Quantize(colors, maxColors, unique).value.palette| <= maxColors
  {
    if colors != [] {
      assert colors[0] in unique;
      if |unique| > maxColors {
        ChannelMinIsMin(colors, Red);
        ChannelMaxIsMax(colors, Red);
        QuantizeReduces(colors, maxColors, unique, Red, ChannelMin(colors, Red), ChannelMax(colors, Red));
      }
    }
  }

  /** Every colour gets an index into the palette whose entry is nearest to it (the colour itself when it fits). */
  lemma QuantizeNearest(colors: seq<Rgb>, maxColors: int, unique: seq<Rgb>, c: Rgb)
    requires IsUniqueList(unique, colors) && c in colors
    requires Quantize(colors, maxColors, unique).Success?
    ensures var q := Quantize(colors, maxColors, unique).value;
      && c in q.index
      && 1 <= q.index[c] <= |q.palette|
      && IsFirstNearest(c, q.palette, q.index[c] - 1)
  {
    assert colors != [] && c in unique;
    if |unique| <= maxColors {
      assert Quantize(colors, maxColors, unique).value == Quantized(unique, PositionMap(unique));
      PositionMapNearest(unique, c);
    } else {
      var palette := Take(MedianCut(unique, Log2Floor(maxColors)), maxColors);
      assert Quantize(colors, maxColors, unique).value == Quantized(palette, NearestMap(unique, palette));
      NearestMapNearest(unique, palette, c);
    }
  }

  /** A colour that fits keeps its own slot, which is its first nearest entry. */
  lemma PositionMapNearest(unique: seq<Rgb>, c: Rgb)
    requires (forall i, j :: 0 <= i < j < |unique| ==> unique[i] != unique[j]) && c in unique
    ensures c in PositionMap(unique)
    ensures 1 <= PositionMap(unique)[c] <= |unique| && IsFirstNearest(c, unique, PositionMap(unique)[c] - 1)
  {
    var i :| 0 <= i < |unique| && unique[i] == c;
    assert PositionMap(unique)[c] == i + 1;
    forall j | 0 <= j < i
      ensures DistanceSq(c, unique[i]) < DistanceSq(c, unique[j])
    {
      assert unique[j] != c;
      DistanceZero(c, unique[j]);
    }
  }

  /** A colour mapped by the nearest scan names its first nearest palette entry. */
  lemma NearestMapNearest(unique: seq<Rgb>, palette: seq<Rgb>, c: Rgb)
    requires palette != [] && c in unique
    ensures c in NearestMap(unique, palette)
    ensures 1 <= NearestMap(unique, palette)[c] <= |palette| && IsFirstNearest(c, palette, NearestMap(unique, palette)[c] - 1)
  {
    NearestMapAt(unique, palette, c);
    FirstNearestIsFirst(c, palette);
  }

  /** Only a colour has distance 0 to itself. */
  lemma DistanceZero(a: Rgb, b: Rgb)
    ensures DistanceSq(a, a) == 0
    ensures a != b ==> DistanceSq(a, b) > 0
  {
    var dr, dg, db := a.r - b.r, a.g - b.g, a.b - b.b;
    if a != b {
      assert dr != 0 || dg != 0 || db != 0;
      assert dr * dr >= 0 && dg * dg >= 0 && db * db >= 0;
      if dr != 0 { assert dr * dr > 0; }
      if dg != 0 { assert dg * dg > 0; }
      if db != 0 { assert db * db > 0; }
    }
  }

  /** A colour that is itself a candidate is its own nearest candidate. */
  lemma NearestOfMember(c: Rgb, cands: seq<Rgb>, k: int)
    requires IsFirstNearest(c, cands, k) && c in cands
    ensures cands[k] == c
  {
    var j :| 0 <= j < |cands| && cands[j] == c;
    DistanceZero(c, c);
    DistanceZero(c, cands[k]);
    assert DistanceSq(c, cands[k]) <= DistanceSq(c, cands[j]);
  }

  /**
   * For max_colors >= 1 every colour maps to a palette slot in 1..max_colors
   * holding its nearest palette colour, which is the colour itself when the
   * colours fit.
   */
  lemma QuantizeSlot(colors: seq<Rgb>, maxColors: int, unique: seq<Rgb>, c: Rgb)
    requires IsUniqueList(unique, colors) && maxColors >= 1 && c in colors
    ensures Quantize(colors, maxColors, unique).Success?
    ensures var q := Quantize(colors, maxColors, unique).value;
      && c in q.index
      && 1 <= q.index[c] <= |q.palette| <= maxColors
      && IsFirstNearest(c, q.palette, q.index[c] - 1)
      && (|unique| <= maxColors ==> q.palette[q.index[c] - 1] == c)
  {
    QuantizeBounded(colors, maxColors, unique);
    QuantizeNearest(colors, maxColors, unique, c);
    if |unique| <= maxColors {
      QuantizeFits(colors, maxColors, unique);
      var q := Quantize(colors, maxColors, unique).value;
      NearestOfMember(c, q.palette, q.index[c] - 1);
    }
  }
}
