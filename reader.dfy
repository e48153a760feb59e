/**
 * The MagicaVoxel .vox reader: a linear scan of the chunks after the
 * 8-byte header (the children size of each chunk is read past, so nested
 * chunks come out as the chunks that follow their parent), a pass pairing
 * each XYZI with the latest SIZE and taking the palette from RGBA, and a
 * scene-graph pass that resolves nTRN -> nSHP links into instances.
 * Python exceptions are failures: ValueError for a bad magic or an int()
 * that does not parse, struct.error for a read past the end.
 */
module Reader {
  import opened Wrappers
  import opened Bytes
  import opened Text
  import opened Voxels

  datatype ReadError = NotVox | Truncated | BadInt

  /** One entry of read_vox_scene's chunk list: the decoded id and the (possibly short) content. */
  datatype RawChunk = RawChunk(id: string, content: seq<byte>)

  // ---------------------------------------------------------------------
  // Insertion-ordered dicts

  /** d[k] = v on a Python dict kept as its items in order: a new key goes last, an old key keeps its place. */
  function Put<K(==), V>(d: seq<(K, V)>, k: K, v: V): (r: seq<(K, V)>)
    ensures |r| == if Get(d, k).Some? then |d| else |d| + 1
  {
    if d == [] then [(k, v)]
    else if d[0].0 == k then [(k, v)] + d[1..]
    else [d[0]] + Put(d[1..], k, v)
  }

  /** d.get(k): the value of the item whose key is k, if any. */
  function Get<K(==), V>(d: seq<(K, V)>, k: K): (r: Option<V>)
    ensures r.Some? ==> (k, r.value) in d
  {
    if d == [] then None
    else if d[0].0 == k then Some(d[0].1)
    else Get(d[1..], k)
  }

  /** After d[k] = v, d[k] is v and every other key reads as before. */
  lemma {:induction false} GetPut<K, V>(d: seq<(K, V)>, k: K, v: V, k': K)
    ensures Get(Put(d, k, v), k') == if k' == k then Some(v) else Get(d, k')
  {
    if d != [] && d[0].0 != k {
      GetPut(d[1..], k, v, k');
    }
  }

  // ---------------------------------------------------------------------
  // _parse_dict

  /**
   * One dict item from pos on: u32 key length, key bytes, u32 value length,
   * value bytes; and the position after it. None is the struct.error of a
   * length read past the end; the byte strings themselves are clipped.
   */
  function ItemAt(content: seq<byte>, pos: nat): Option<(seq<byte>, seq<byte>, nat)> {
    match U32At(content, pos)
    case None => None
    case Some(keyLen) =>
      var p := pos + 4 + keyLen;
      match U32At(content, p)
      case None => None
      case Some(valLen) =>
        Some((Slice(content, pos + 4, p), Slice(content, p + 4, p + 4 + valLen), p + 4 + valLen))
  }

  /** One pass of _parse_dict's loop: an item read at pos and assigned into attrs (attrs[key] = val), and the position after it. */
  function Assigned(content: seq<byte>, pos: nat, attrs: seq<(string, string)>): Option<(seq<(string, string)>, nat)> {
    match ItemAt(content, pos)
    case None => None
    case Some((key, val, next)) => Some((Put(attrs, AsciiDecode(key), AsciiDecode(val)), next))
  }

  /** The remaining `remaining` items of a dict from pos on, assigned into attrs. */
  function AttrsFrom(content: seq<byte>, pos: nat, remaining: nat, attrs: seq<(string, string)>)
    : Option<(seq<(string, string)>, nat)>
    decreases remaining
  {
    if remaining == 0 then Some((attrs, pos))
    else match Assigned(content, pos, attrs)
      case None => None
      case Some((attrs', next)) => AttrsFrom(content, next, remaining - 1, attrs')
  }

  /** _parse_dict(content, start): the dict and the position just after it; None when an unpack runs past the end. */
  function DictAt(content: seq<byte>, start: nat): Option<(seq<(string, string)>, nat)> {
    match U32At(content, start)
    case None => None
    case Some(n) => AttrsFrom(content, start + 4, n, [])
  }

  /** The body of _parse_dict's loop: one key and one value, each behind its u32 length. */
  method ReadItem(content: seq<byte>, start: nat) returns (r: Option<(seq<byte>, seq<byte>, nat)>)
    ensures r == ItemAt(content, start)
  {
    var keyLen := U32At(content, start);
    if keyLen.None? {
      return None;
    }
    var key := Slice(content, start + 4, start + 4 + keyLen.value);
    var pos := start + 4 + keyLen.value;
    var valLen := U32At(content, pos);
    if valLen.None? {
      return None;
    }
    var val := Slice(content, pos + 4, pos + 4 + valLen.value);
    return Some((key, val, pos + 4 + valLen.value));
  }

  /** The body of _parse_dict's loop: read an item and assign it into attrs. */
  method AssignItem(content: seq<byte>, pos: nat, attrs: seq<(string, string)>) returns (r: Option<(seq<(string, string)>, nat)>)
    ensures r == Assigned(content, pos, attrs)
  {
    var item := ReadItem(content, pos);
    if item.None? {
      return None;
    }
    var (key, val, next) := item.value;
    return Some((Put(attrs, AsciiDecode(key), AsciiDecode(val)), next));
  }

  /** _parse_dict: the item count, then the items. */
  method ParseDict(content: seq<byte>, start: nat) returns (r: Option<(seq<(string, string)>, nat)>)
    ensures r == DictAt(content, start)
  {
    var count := U32At(content, start);
    if count.None? {
      return None;
    }
    r := ReadItems(content, start + 4, count.value);
  }

  /** _parse_dict's loop: n items from pos on, each assigned into attrs. */
  method ReadItems(content: seq<byte>, start: nat, n: nat) returns (r: Option<(seq<(string, string)>, nat)>)
    ensures r == AttrsFrom(content, start, n, [])
  {
    var pos := start;
    var attrs: seq<(string, string)> := [];
    for i := 0 to n
      invariant AttrsFrom(content, pos, n - i, attrs) == AttrsFrom(content, start, n, [])
    {
      var step := AssignItem(content, pos, attrs);
      if step.None? {
        return None;
      }
      assert n - i - 1 == n - (i + 1);
      attrs, pos := step.value.0, step.value.1;
    }
    return Some((attrs, pos));
  }

  predicate DictEncodable(e: seq<(string, string)>) {
    forall i :: 0 <= i < |e| ==> ItemEncodable(e[i].0, e[i].1)
  }

  predicate ItemEncodable(k: string, v: string) {
    IsAscii(k) && IsAscii(v) && |k| < TWO_32 && |v| < TWO_32
  }

  /** One dict item as MagicaVoxel lays it out. */
  function ItemBytes(k: string, v: string): (r: seq<byte>)
    requires ItemEncodable(k, v)
    ensures |r| == 8 + |k| + |v|
  {
    Field(AsciiEncode(k)) + Field(AsciiEncode(v))
  }

  function ItemsBytes(e: seq<(string, string)>): seq<byte>
    requires DictEncodable(e)
  {
    if e == [] then [] else ItemBytes(e[0].0, e[0].1) + (DictEncodableTail(e); ItemsBytes(e[1..]))
  }

  /** A dict written as its item count and items. */
  function DictBytes(e: seq<(string, string)>): seq<byte>
    requires DictEncodable(e) && |e| < TWO_32
  {
    U32LE(|e|) + ItemsBytes(e)
  }

  /** The dict the items e build when assigned in order (a later duplicate key wins). */
  function PutAll(attrs: seq<(string, string)>, e: seq<(string, string)>): seq<(string, string)>
    decreases |e|
  {
    if e == [] then attrs else PutAll(Put(attrs, e[0].0, e[0].1), e[1..])
  }

  /** A written item, found at pos, is read back as its key and value bytes and the position after it. */
  lemma ItemRoundTrip(s: seq<byte>, pos: nat, k: string, v: string)
    requires ItemEncodable(k, v)
    requires pos + |ItemBytes(k, v)| <= |s| && s[pos..pos + |ItemBytes(k, v)|] == ItemBytes(k, v)
    ensures ItemAt(s, pos) == Some((AsciiEncode(k), AsciiEncode(v), pos + |ItemBytes(k, v)|))
  {
    ItemWindow(s, pos, AsciiEncode(k), AsciiEncode(v));
  }

  lemma ItemWindow(s: seq<byte>, pos: nat, kb: seq<byte>, vb: seq<byte>)
    requires |kb| < TWO_32 && |vb| < TWO_32
    requires pos + 8 + |kb| + |vb| <= |s| && s[pos..pos + 8 + |kb| + |vb|] == Field(kb) + Field(vb)
    ensures ItemAt(s, pos) == Some((kb, vb, pos + 8 + |kb| + |vb|))
  {
    WindowSplit(s, pos, Field(kb), Field(vb));
    FieldWindow(s, pos, kb);
    FieldWindow(s, pos + 4 + |kb|, vb);
    ItemAtFields(s, pos, |kb|, |vb|);
  }

  lemma ItemAtFields(s: seq<byte>, pos: nat, keyLen: nat, valLen: nat)
    requires U32At(s, pos) == Some(keyLen) && U32At(s, pos + 4 + keyLen) == Some(valLen)
    ensures var p := pos + 4 + keyLen;
      ItemAt(s, pos) == Some((Slice(s, pos + 4, p), Slice(s, p + 4, p + 4 + valLen), p + 4 + valLen))
  {
  }

  /** The items of e read one after another from pos on, ending at end. */
  predicate ItemsAt(s: seq<byte>, pos: nat, e: seq<(string, string)>, end: nat)
    decreases |e|, 1
  {
    if e == [] then end == pos else HeadItemAt(s, pos, e, end)
  }

  /** The first item of e read at pos, and the rest after it. */
  predicate HeadItemAt(s: seq<byte>, pos: nat, e: seq<(string, string)>, end: nat)
    requires e != []
    decreases |e|, 0
  {
    match ItemAt(s, pos)
    case None => false
    case Some((kb, vb, next)) => IsAscii(e[0].0) && IsAscii(e[0].1) && kb == AsciiEncode(e[0].0) && vb == AsciiEncode(e[0].1) && ItemsAt(s, next, e[1..], end)
  }

  lemma {:induction false} WindowItems(s: seq<byte>, pos: nat, e: seq<(string, string)>, end: nat)
    requires DictEncodable(e) && end == pos + |ItemsBytes(e)|
    requires end <= |s| && s[pos..end] == ItemsBytes(e)
    ensures ItemsAt(s, pos, e, end)
    decreases |e|
  {
    if e != [] {
      DictEncodableTail(e);
      var item, rest := ItemBytes(e[0].0, e[0].1), ItemsBytes(e[1..]);
      var next := pos + |item|;
      assert s[pos..end] == item + rest;
      WindowSplitAt(s, pos, item, rest, next, end);
      WindowItems(s, next, e[1..], end);
      ItemsAtCons(s, pos, e, end, item, next);
    }
  }

  /** A window pos..end of s holding a + b holds a up to mid and b from mid on. */
  lemma WindowSplitAt(s: seq<byte>, pos: nat, a: seq<byte>, b: seq<byte>, mid: nat, end: nat)
    requires mid == pos + |a| && end == mid + |b| && end <= |s| && s[pos..end] == a + b
    ensures s[pos..mid] == a && s[mid..end] == b
  {
    WindowSplit(s, pos, a, b);
  }

  /** An item written at pos, followed by items read up to end, gives all the items read up to end. */
  lemma ItemsAtCons(s: seq<byte>, pos: nat, e: seq<(string, string)>, end: nat, item: seq<byte>, next: nat)
    requires e != [] && ItemEncodable(e[0].0, e[0].1) && item == ItemBytes(e[0].0, e[0].1)
    requires next == pos + |item| && next <= |s| && s[pos..next] == item
    requires ItemsAt(s, next, e[1..], end)
    ensures ItemsAt(s, pos, e, end)
  {
    ItemRoundTrip(s, pos, e[0].0, e[0].1);
    ItemsAtStep(s, pos, e, end, next);
  }

  lemma ItemsAtStep(s: seq<byte>, pos: nat, e: seq<(string, string)>, end: nat, next: nat)
    requires e != [] && IsAscii(e[0].0) && IsAscii(e[0].1)
    requires ItemAt(s, pos) == Some((AsciiEncode(e[0].0), AsciiEncode(e[0].1), next))
    requires ItemsAt(s, next, e[1..], end)
    ensures ItemsAt(s, pos, e, end)
  {
  }

  /** Items laid out one after another are read into the dict they build. */
  lemma {:induction false} AttrsFromItems(s: seq<byte>, pos: nat, e: seq<(string, string)>, end: nat, attrs: seq<(string, string)>)
    requires ItemsAt(s, pos, e, end)
    ensures AttrsFrom(s, pos, |e|, attrs) == Some((PutAll(attrs, e), end))
    decreases |e|
  {
    if e != [] {
      var next := HeadItem(s, pos, e, end, attrs);
      AttrsFromItems(s, next, e[1..], end, Put(attrs, e[0].0, e[0].1));
      AttrsFromCons(s, pos, e, end, attrs, next);
    }
  }

  /** Reading the remaining items is reading the first one, then the rest. */
  lemma AttrsFromCons(s: seq<byte>, pos: nat, e: seq<(string, string)>, end: nat, attrs: seq<(string, string)>, next: nat)
    requires e != [] && Assigned(s, pos, attrs) == Some((Put(attrs, e[0].0, e[0].1), next))
    requires AttrsFrom(s, next, |e[1..]|, Put(attrs, e[0].0, e[0].1)) == Some((PutAll(Put(attrs, e[0].0, e[0].1), e[1..]), end))
    ensures AttrsFrom(s, pos, |e|, attrs) == Some((PutAll(attrs, e), end))
  {
  }

  /** The first of the items laid out at pos is assigned into attrs, and the rest follow. */
  lemma HeadItem(s: seq<byte>, pos: nat, e: seq<(string, string)>, end: nat, attrs: seq<(string, string)>) returns (next: nat)
    requires e != [] && ItemsAt(s, pos, e, end)
    ensures Assigned(s, pos, attrs) == Some((Put(attrs, e[0].0, e[0].1), next))
    ensures ItemsAt(s, next, e[1..], end)
  {
    next := ItemAt(s, pos).value.2;
    AsciiRoundTrip(e[0].0);
    AsciiRoundTrip(e[0].1);
  }

  lemma DictEncodableTail(e: seq<(string, string)>)
    requires e != [] && DictEncodable(e)
    ensures DictEncodable(e[1..])
  {
    forall i | 0 <= i < |e[1..]|
      ensures ItemEncodable(e[1..][i].0, e[1..][i].1)
    {
      assert e[1..][i] == e[i + 1];
    }
  }

  /**
   * Reading back a written dict gives the dict its items build, and the
   * position just after it: start + 4 + the sum of 8 + |key| + |value|.
   */
  lemma DictRoundTrip(s: seq<byte>, start: nat, e: seq<(string, string)>)
    requires DictEncodable(e) && |e| < TWO_32
    requires start + |DictBytes(e)| <= |s| && s[start..start + |DictBytes(e)|] == DictBytes(e)
    ensures DictAt(s, start) == Some((PutAll([], e), start + |DictBytes(e)|))
  {
    var end := start + |DictBytes(e)|;
    DictHeader(s, start, e);
    WindowItems(s, start + 4, e, end);
    AttrsFromItems(s, start + 4, e, end, []);
  }

  /** A written dict starts with its item count, and its items follow. */
  lemma DictHeader(s: seq<byte>, start: nat, e: seq<(string, string)>)
    requires DictEncodable(e) && |e| < TWO_32
    requires start + |DictBytes(e)| <= |s| && s[start..start + |DictBytes(e)|] == DictBytes(e)
    ensures U32At(s, start) == Some(|e|)
    ensures start + |DictBytes(e)| == start + 4 + |ItemsBytes(e)|
    ensures s[start + 4..start + |DictBytes(e)|] == ItemsBytes(e)
  {
    WindowSplit(s, start, U32LE(|e|), ItemsBytes(e));
    U32AtWindow(s, start, |e|);
  }

  // ---------------------------------------------------------------------
  // The chunk scan

  /** The chunk whose header starts at pos: its decoded id and its content, clipped at the end of data. */
  function ChunkAt(data: seq<byte>, pos: nat): RawChunk
    requires pos + 12 <= |data|
  {
    RawChunk(AsciiDecode(data[pos..pos + 4]), Slice(data, pos + 12, ChunkEnd(data, pos)))
  }

  /** Where the next chunk header starts: past the 12-byte header and the content, not the children. */
  function ChunkEnd(data: seq<byte>, pos: nat): (next: nat)
    requires pos + 12 <= |data|
    ensures next >= pos + 12
  {
    pos + 12 + U32At(data, pos + 4).value
  }

  /** The chunks from pos on, read one header after another until fewer than 12 bytes remain. */
  function ScanFrom(data: seq<byte>, pos: nat): seq<RawChunk>
    decreases |data| - pos
  {
    if pos + 12 > |data| then [] else [ChunkAt(data, pos)] + ScanFrom(data, ChunkEnd(data, pos))
  }

  /** chunks are the chunks before pos: with the ones from pos on they make the whole scan. */
  predicate Scanned(data: seq<byte>, chunks: seq<RawChunk>, pos: nat) {
    chunks + ScanFrom(data, pos) == ScanFrom(data, 8)
  }

  lemma ScanAdvance(data: seq<byte>, chunks: seq<RawChunk>, pos: nat)
    requires pos + 12 <= |data| && Scanned(data, chunks, pos)
    ensures Scanned(data, chunks + [ChunkAt(data, pos)], ChunkEnd(data, pos))
  {
    var c, rest := ChunkAt(data, pos), ScanFrom(data, ChunkEnd(data, pos));
    assert ScanFrom(data, pos) == [c] + rest;
    assert (chunks + [c]) + rest == chunks + ([c] + rest);
  }

  method ScanChunks(data: seq<byte>) returns (chunks: seq<RawChunk>)
    ensures chunks == ScanFrom(data, 8)
  {
    var pos: nat := 8;
    chunks := [];
    while pos < |data|
      invariant Scanned(data, chunks, pos)
      decreases |data| - pos
    {
      if pos + 12 > |data| {
        break;
      }
      ScanAdvance(data, chunks, pos);
      chunks := chunks + [ChunkAt(data, pos)];
      pos := ChunkEnd(data, pos);
    }
    assert ScanFrom(data, pos) == [];
  }
}
