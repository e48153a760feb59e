/**
 * Bytes, little-endian unsigned 32-bit words (Python's struct '<I') and
 * ASCII text as it is packed into and decoded out of .vox chunks.
 */
module Bytes {
  import opened Wrappers

  type byte = b: int | 0 <= b < 256

  const TWO_32: int := 0x1_0000_0000

  /** struct.pack('<I', n): the four bytes of n, least significant first. */
  function U32LE(n: int): (r: seq<byte>)
    requires 0 <= n < TWO_32
    ensures |r| == 4
  {
    [n % 256, (n / 256) % 256, (n / 65536) % 256, n / 16777216]
  }

  /** struct.unpack('<I', b)[0] for a four-byte slice. */
  function U32Of(b: seq<byte>): (n: int)
    requires |b| == 4
    ensures 0 <= n < TWO_32
  {
    b[0] as int + 256 * (b[1] as int) + 65536 * (b[2] as int) + 16777216 * (b[3] as int)
  }

  lemma U32RoundTrip(n: int)
    requires 0 <= n < TWO_32
    ensures U32Of(U32LE(n)) == n
  {
    var q1 := n / 256;
    var q2 := q1 / 256;
    var q3 := q2 / 256;
    assert n == n % 256 + 256 * q1;
    assert q1 == q1 % 256 + 256 * q2;
    assert q2 == q2 % 256 + 256 * q3;
    assert (n / 256) % 256 == q1 % 256;
    assert n / 65536 == q2;
    assert n / 16777216 == q3;
  }

  lemma U32Injective(b: seq<byte>)
    requires |b| == 4
    ensures U32LE(U32Of(b)) == b
  {
    var n := U32Of(b);
    assert n % 256 == b[0];
    assert n / 256 == b[1] as int + 256 * (b[2] as int) + 65536 * (b[3] as int);
    assert n / 65536 == b[2] as int + 256 * (b[3] as int);
    assert n / 16777216 == b[3];
  }

  /**
   * Reading a u32 at `pos` out of `s`: Python slices s[pos:pos+4] (which is
   * shorter than four bytes past the end) and struct.unpack raises on a
   * short slice, so a read past the end is None.
   */
  function U32At(s: seq<byte>, pos: int): (r: Option<int>)
    requires 0 <= pos
    ensures r.Some? <==> pos + 4 <= |s|
    ensures r.Some? ==> 0 <= r.value < TWO_32
  {
    if pos + 4 <= |s| then Some(U32Of(s[pos..pos + 4])) else None
  }

  lemma U32AtEncoded(prefix: seq<byte>, n: int, suffix: seq<byte>)
    requires 0 <= n < TWO_32
    ensures U32At(prefix + U32LE(n) + suffix, |prefix|) == Some(n)
  {
    var s := prefix + U32LE(n) + suffix;
    assert s[|prefix|..|prefix| + 4] == U32LE(n);
    U32RoundTrip(n);
  }

  /** A slice of a window of s that holds w is the same slice of w. */
  lemma SubSlice<T>(s: seq<T>, pos: int, w: seq<T>, a: int, b: int)
    requires 0 <= pos && pos + |w| <= |s| && s[pos..pos + |w|] == w
    requires 0 <= a <= b <= |w|
    ensures s[pos + a..pos + b] == w[a..b]
  {
    forall i | 0 <= i < b - a
      ensures s[pos + a..pos + b][i] == w[a..b][i]
    {
      assert s[pos + a + i] == s[pos..pos + |w|][a + i];
    }
  }

  /** A window of s holding a + b holds a, then b. */
  lemma WindowSplit<T>(s: seq<T>, pos: int, a: seq<T>, b: seq<T>)
    requires 0 <= pos && pos + |a + b| <= |s| && s[pos..pos + |a + b|] == a + b
    ensures s[pos..pos + |a|] == a
    ensures s[pos + |a|..pos + |a| + |b|] == b
  {
    SubSlice(s, pos, a + b, 0, |a|);
    SubSlice(s, pos, a + b, |a|, |a + b|);
    assert (a + b)[..|a|] == a;
    assert (a + b)[|a|..] == b;
  }

  lemma U32AtWindow(s: seq<byte>, pos: int, n: int)
    requires 0 <= pos && pos + 4 <= |s| && 0 <= n < TWO_32 && s[pos..pos + 4] == U32LE(n)
    ensures U32At(s, pos) == Some(n)
  {
    U32RoundTrip(n);
  }

  /** A byte string behind its u32 length, as .vox dicts store strings. */
  function Field(b: seq<byte>): (r: seq<byte>)
    requires |b| < TWO_32
    ensures |r| == 4 + |b|
  {
    U32LE(|b|) + b
  }

  /** A window of s holding a field reads back as the field's length and bytes. */
  lemma FieldWindow(s: seq<byte>, pos: int, b: seq<byte>)
    requires |b| < TWO_32
    requires 0 <= pos && pos + |Field(b)| <= |s| && s[pos..pos + |Field(b)|] == Field(b)
    ensures U32At(s, pos) == Some(|b|)
    ensures Slice(s, pos + 4, pos + 4 + |b|) == b
  {
    WindowSplit(s, pos, U32LE(|b|), b);
    U32AtWindow(s, pos, |b|);
    SliceInRange(s, pos + 4, pos + 4 + |b|);
  }

  /** Python's slice s[lo:hi] for 0 <= lo: clipped to the end of s. */
  function Slice<T>(s: seq<T>, lo: int, hi: int): (r: seq<T>)
    requires 0 <= lo
    ensures |r| == if lo <= hi && lo <= |s| then (if hi <= |s| then hi else |s|) - lo else 0
  {
    if lo <= hi && lo <= |s| then s[lo..if hi <= |s| then hi else |s|] else []
  }

  lemma SliceInRange<T>(s: seq<T>, lo: int, hi: int)
    requires 0 <= lo <= hi <= |s|
    ensures Slice(s, lo, hi) == s[lo..hi]
  {
  }

  predicate IsAscii(s: string) {
    forall i :: 0 <= i < |s| ==> s[i] as int < 128
  }

  /** str.encode('ascii') of an ASCII string. */
  function AsciiEncode(s: string): (r: seq<byte>)
    requires IsAscii(s)
    ensures |r| == |s|
    ensures forall i :: 0 <= i < |s| ==> r[i] == s[i] as int
  {
    seq(|s|, i requires 0 <= i < |s| => s[i] as int)
  }

  /** The replacement character U+FFFD that bytes.decode('ascii', errors='replace') uses. */
  const REPLACEMENT: char := '\U{FFFD}'

  function DecodeByte(b: byte): char {
    if b < 128 then b as char else REPLACEMENT
  }

  /** bytes.decode('ascii', errors='replace'): one character per byte. */
  function AsciiDecode(b: seq<byte>): (s: string)
    ensures |s| == |b|
  {
    if b == [] then [] else [DecodeByte(b[0])] + AsciiDecode(b[1..])
  }

  lemma {:induction false} AsciiDecodeAt(b: seq<byte>, i: int)
    requires 0 <= i < |b|
    ensures AsciiDecode(b)[i] == DecodeByte(b[i])
    decreases |b|
  {
    if i > 0 {
      AsciiDecodeAt(b[1..], i - 1);
    }
  }

  lemma AsciiRoundTrip(s: string)
    requires IsAscii(s)
    ensures AsciiDecode(AsciiEncode(s)) == s
  {
    var e := AsciiEncode(s);
    forall i | 0 <= i < |s|
      ensures AsciiDecode(e)[i] == s[i]
    {
      AsciiDecodeAt(e, i);
    }
  }
}
