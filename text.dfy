/**
 * The few pieces of Python string handling the reader relies on when it
 * decodes scene-graph attributes: str.split() with no separator, int() of a
 * decimal string, and str() of an integer (used for "Model_<i>" names).
 * Strings here come out of an ASCII decode, so they hold ASCII characters
 * and U+FFFD only.
 */
module Text {
  import opened Wrappers

  /** str.isspace() restricted to the characters an ASCII decode can yield. */
  predicate IsSpace(c: char) {
    var k := c as int;
    k == 32 || (9 <= k <= 13) || (28 <= k <= 31)
  }

  predicate IsDigit(c: char) {
    '0' <= c <= '9'
  }

  predicate NoSpace(w: string) {
    forall i :: 0 <= i < |w| ==> !IsSpace(w[i])
  }

  /** The string with its leading whitespace removed. */
  function DropSpaces(s: string): (r: string)
    ensures |r| <= |s| && r == s[|s| - |r|..]
    ensures r == [] || !IsSpace(r[0])
    ensures forall i :: 0 <= i < |s| - |r| ==> IsSpace(s[i])
  {
    if s == [] || !IsSpace(s[0]) then s else DropSpaces(s[1..])
  }

  /** The longest prefix of s that holds no whitespace. */
  function Word(s: string): (w: string)
    ensures |w| <= |s| && w == s[..|w|]
    ensures NoSpace(w)
    ensures |w| < |s| ==> IsSpace(s[|w|])
  {
    if s == [] || IsSpace(s[0]) then [] else [s[0]] + Word(s[1..])
  }

  /** str.split(): the maximal runs of non-whitespace characters, in order. */
  function Split(s: string): (parts: seq<string>)
    ensures forall i :: 0 <= i < |parts| ==> parts[i] != [] && NoSpace(parts[i])
    decreases |s|
  {
    var t := DropSpaces(s);
    if t == [] then [] else
      var w := Word(t);
      assert w != [] by {
        assert Word(t) == [t[0]] + Word(t[1..]);
      }
      var rest := Split(t[|w|..]);
      WordsCons(w, rest);
      [w] + rest
  }

  lemma WordsCons(w: string, rest: seq<string>)
    requires w != [] && NoSpace(w)
    requires forall i :: 0 <= i < |rest| ==> rest[i] != [] && NoSpace(rest[i])
    ensures forall i :: 0 <= i < |[w] + rest| ==> ([w] + rest)[i] != [] && NoSpace(([w] + rest)[i])
  {
    forall i | 0 <= i < |[w] + rest|
      ensures ([w] + rest)[i] != [] && NoSpace(([w] + rest)[i])
    {
      if i > 0 {
        assert ([w] + rest)[i] == rest[i - 1];
      }
    }
  }

  /** Words joined by single spaces, as MagicaVoxel writes a "_t" value. */
  function JoinSpaced(words: seq<string>): string {
    if words == [] then ""
    else if |words| == 1 then words[0]
    else words[0] + " " + JoinSpaced(words[1..])
  }

  lemma {:induction false} WordOfJoined(w: string, rest: string)
    requires w != [] && NoSpace(w)
    requires rest == [] || IsSpace(rest[0])
    ensures Word(w + rest) == w
    decreases |w|
  {
    var s := w + rest;
    assert s[0] == w[0] && !IsSpace(s[0]);
    assert Word(s) == [w[0]] + Word(s[1..]);
    if |w| > 1 {
      assert s[1..] == w[1..] + rest;
      WordOfJoined(w[1..], rest);
      assert Word(s[1..]) == w[1..];
      assert [w[0]] + w[1..] == w;
    } else {
      assert s[1..] == rest;
      assert Word(rest) == [];
      assert [w[0]] + [] == w;
    }
  }

  /** Splitting space-joined words gives the words back. */
  lemma {:induction false} SplitJoined(words: seq<string>)
    requires forall i :: 0 <= i < |words| ==> words[i] != [] && NoSpace(words[i])
    ensures Split(JoinSpaced(words)) == words
    decreases |words|
  {
    if words == [] {
    } else if |words| == 1 {
      var w := words[0];
      assert DropSpaces(w) == w;
      WordOfJoined(w, []);
      assert w + [] == w;
      assert w[|w|..] == [];
    } else {
      var w := words[0];
      var tail := JoinSpaced(words[1..]);
      var s := w + " " + tail;
      assert s == w + (" " + tail);
      assert DropSpaces(s) == s;
      WordOfJoined(w, " " + tail);
      assert s[|w|..] == " " + tail;
      SplitJoined(words[1..]);
      assert words[1..] != [] && words[1][0] == JoinSpaced(words[1..])[0] by {
        JoinSpacedStartsWithFirst(words[1..]);
      }
      assert DropSpaces(" " + tail) == DropSpaces(tail);
      assert DropSpaces(tail) == tail;
    }
  }

  lemma JoinSpacedStartsWithFirst(words: seq<string>)
    requires words != [] && words[0] != []
    ensures |JoinSpaced(words)| >= 1 && JoinSpaced(words)[0] == words[0][0]
  {
  }

  /** The string with leading and trailing whitespace removed (what int() ignores). */
  function Strip(s: string): (r: string)
    ensures |r| <= |s|
  {
    var t := DropSpaces(s);
    DropTrailingSpaces(t)
  }

  function DropTrailingSpaces(s: string): (r: string)
    ensures |r| <= |s| && r == s[..|r|]
    ensures r == [] || !IsSpace(r[|r| - 1])
  {
    if s == [] || !IsSpace(s[|s| - 1]) then s else DropTrailingSpaces(s[..|s| - 1])
  }

  predicate AllDigits(s: string) {
    forall i :: 0 <= i < |s| ==> IsDigit(s[i])
  }

  function DigitValue(c: char): nat
    requires IsDigit(c)
  {
    c as int - '0' as int
  }

  /** The value of a string of decimal digits, most significant first. */
  function DigitsValue(s: string): nat
    requires AllDigits(s)
  {
    if s == [] then 0 else 10 * DigitsValue(s[..|s| - 1]) + DigitValue(s[|s| - 1])
  }

  /**
   * digit ('_'? digit)*: decimal digits, where a single underscore may
   * separate two digits, as int() accepts them.
   */
  predicate GroupedDigits(s: string) {
    && s != [] && IsDigit(s[0]) && IsDigit(s[|s| - 1])
    && (forall i :: 0 <= i < |s| ==> IsDigit(s[i]) || s[i] == '_')
    && (forall i :: 0 <= i < |s| - 1 && s[i] == '_' ==> s[i + 1] != '_')
  }

  /** s with its underscores removed. */
  function DropUnderscores(s: string): (r: string)
    ensures (forall i :: 0 <= i < |s| ==> IsDigit(s[i]) || s[i] == '_') ==> AllDigits(r)
    ensures s != [] && s[0] != '_' ==> r != [] && r[0] == s[0]
  {
    if s == [] then []
    else (if s[0] == '_' then [] else [s[0]]) + DropUnderscores(s[1..])
  }

  /**
   * int(s) for base 10: surrounding whitespace ignored, then an optional
   * sign and digits grouped by single underscores; anything else raises
   * ValueError (None).
   */
  function ParseInt(s: string): (r: Option<int>)
  {
    var t := Strip(s);
    var negative := |t| > 0 && t[0] == '-';
    var digits := if |t| > 0 && (t[0] == '+' || t[0] == '-') then t[1..] else t;
    if GroupedDigits(digits) then
      var d := DropUnderscores(digits);
      Some(if negative then -(DigitsValue(d) as int) else DigitsValue(d))
    else None
  }

  function DigitChar(d: nat): (c: char)
    requires d < 10
    ensures IsDigit(c) && DigitValue(c) == d
  {
    ('0' as int + d) as char
  }

  /** str(n) for a natural number. */
  function FormatNat(n: nat): (s: string)
    ensures s != [] && AllDigits(s)
  {
    if n < 10 then [DigitChar(n)] else FormatNat(n / 10) + [DigitChar(n % 10)]
  }

  /** str(i) for any integer. */
  function FormatInt(i: int): string {
    if i < 0 then "-" + FormatNat(-i) else FormatNat(i)
  }

  lemma {:induction false} DigitsOfFormat(n: nat)
    ensures DigitsValue(FormatNat(n)) == n
  {
    if n >= 10 {
      var s := FormatNat(n);
      assert s[..|s| - 1] == FormatNat(n / 10);
      DigitsOfFormat(n / 10);
    }
  }

  /** int(str(i)) == i. */
  lemma ParseFormat(i: int)
    ensures ParseInt(FormatInt(i)) == Some(i)
  {
    if i < 0 {
      ParseNegative(i);
    } else {
      ParseNatural(i);
    }
  }

  lemma ParseNatural(n: nat)
    ensures ParseInt(FormatNat(n)) == Some(n)
  {
    ParseDigits(FormatNat(n));
    DigitsOfFormat(n);
  }

  lemma ParseNegative(i: int)
    requires i < 0
    ensures ParseInt("-" + FormatNat(-i)) == Some(i)
  {
    var d := FormatNat(-i);
    ParseSigned(d);
    DigitsOfFormat(-i);
    assert DigitsValue(d) == -i;
    assert ParseInt("-" + d) == Some(-(DigitsValue(d) as int));
    assert -(DigitsValue(d) as int) == i;
  }

  /** int() of a string of digits is their value. */
  lemma ParseDigits(d: string)
    requires d != [] && AllDigits(d)
    ensures ParseInt(d) == Some(DigitsValue(d) as int)
  {
    StripDigits(d);
    assert !(d[0] == '+' || d[0] == '-');
    DropNoUnderscores(d);
  }

  /** int() of a minus sign followed by digits is minus their value. */
  lemma ParseSigned(d: string)
    requires d != [] && AllDigits(d)
    ensures ParseInt("-" + d) == Some(-(DigitsValue(d) as int))
  {
    var s := "-" + d;
    assert |s| == |d| + 1;
    assert s[0] == '-' && s[1..] == d;
    ParseMinus(s, d);
  }

  /** An underscore between two digit groups is ignored: int("1_000") == 1000. */
  lemma ParseUnderscore(a: string, b: string)
    requires a != [] && AllDigits(a) && b != [] && AllDigits(b)
    ensures ParseInt(a + "_" + b) == Some(DigitsValue(a + b) as int)
  {
    var s := a + "_" + b;
    assert s[0] == a[0] && s[|s| - 1] == b[|b| - 1];
    assert s[..|a|] == a && s[|a|] == '_' && s[|a| + 1..] == b;
    ParseUnsigned(s);
    JoinGrouped(a, b, s);
  }

  /** int() refuses an underscore that does not sit between two digits. */
  lemma ParseRejectsLoneUnderscore(d: string)
    requires d != [] && AllDigits(d)
    ensures ParseInt(d + "_") == None
    ensures ParseInt("_" + d) == None
    ensures ParseInt(d + "__" + d) == None
  {
    var s1, s2, s3 := d + "_", "_" + d, d + "__" + d;
    assert s1[0] == d[0] && s1[|s1| - 1] == '_';
    ParseUnsigned(s1);
    assert s2[0] == '_' && s2[|s2| - 1] == d[|d| - 1];
    ParseUnsigned(s2);
    assert s3[0] == d[0] && s3[|s3| - 1] == d[|d| - 1];
    ParseUnsigned(s3);
    assert s3[|d|] == '_' && s3[|d| + 1] == '_';
  }

  /** int() of a string with no surrounding whitespace and no sign. */
  lemma ParseUnsigned(t: string)
    requires t != [] && !IsSpace(t[0]) && !IsSpace(t[|t| - 1]) && t[0] != '+' && t[0] != '-'
    ensures ParseInt(t) == if GroupedDigits(t) then Some(DigitsValue(DropUnderscores(t)) as int) else None
  {
    StripUnchanged(t);
  }

  /** int() of a minus sign followed by digits d is minus the value of d. */
  lemma ParseMinus(t: string, d: string)
    requires d != [] && AllDigits(d) && |t| > 1 && t[0] == '-' && t[1..] == d
    ensures ParseInt(t) == Some(-(DigitsValue(d) as int))
  {
    assert t[|t| - 1] == d[|d| - 1];
    StripUnchanged(t);
    DigitsGrouped(d);
  }

  /** Two digit groups joined by an underscore are grouped digits that read as the groups joined. */
  lemma JoinGrouped(a: string, b: string, s: string)
    requires a != [] && AllDigits(a) && b != [] && AllDigits(b)
    requires |s| == |a| + 1 + |b| && s[..|a|] == a && s[|a|] == '_' && s[|a| + 1..] == b
    ensures GroupedDigits(s)
    ensures DropUnderscores(s) == a + b
  {
    JoinGroupedForm(a, b, s);
    var u := s[|a|..];
    assert s == a + u;
    assert u[0] == '_' && u[1..] == b;
    DropLeading(u, b);
    DropNoUnderscores(a);
    DropUnderscoresConcat(a, u);
  }

  /** An underscore in front of digits is dropped. */
  lemma DropLeading(u: string, b: string)
    requires u != [] && u[0] == '_' && u[1..] == b && AllDigits(b)
    ensures DropUnderscores(u) == b
  {
    DropNoUnderscores(b);
  }

  lemma JoinGroupedForm(a: string, b: string, s: string)
    requires a != [] && AllDigits(a) && b != [] && AllDigits(b)
    requires |s| == |a| + 1 + |b| && s[..|a|] == a && s[|a|] == '_' && s[|a| + 1..] == b
    ensures GroupedDigits(s)
  {
    assert s[0] == s[..|a|][0] && s[|s| - 1] == s[|a| + 1..][|b| - 1];
    forall i | 0 <= i < |s| && i != |a|
      ensures IsDigit(s[i])
    {
      if i < |a| {
        assert s[i] == s[..|a|][i];
      } else {
        assert s[i] == s[|a| + 1..][i - |a| - 1];
      }
    }
    forall i | 0 <= i < |s| - 1 && s[i] == '_'
      ensures s[i + 1] != '_'
    {
      assert i == |a|;
      assert s[i + 1] == s[|a| + 1..][0];
    }
  }

  /** A plain digit string is grouped digits, and reads as itself. */
  lemma DigitsGrouped(d: string)
    requires d != [] && AllDigits(d)
    ensures GroupedDigits(d) && DropUnderscores(d) == d
  {
    DropNoUnderscores(d);
  }

  lemma {:induction false} DropNoUnderscores(d: string)
    requires AllDigits(d)
    ensures DropUnderscores(d) == d
  {
    if d != [] {
      assert AllDigits(d[1..]) by {
        forall i | 0 <= i < |d| - 1
          ensures IsDigit(d[1..][i])
        {
          assert d[1..][i] == d[i + 1];
        }
      }
      DropNoUnderscores(d[1..]);
      assert d == [d[0]] + d[1..];
    }
  }

  lemma {:induction false} DropUnderscoresConcat(a: string, b: string)
    ensures DropUnderscores(a + b) == DropUnderscores(a) + DropUnderscores(b)
  {
    if a == [] {
      assert a + b == b;
    } else {
      assert (a + b)[0] == a[0];
      assert (a + b)[1..] == a[1..] + b;
      DropUnderscoresConcat(a[1..], b);
    }
  }

  /** A string with no whitespace at either end is its own strip. */
  lemma StripUnchanged(s: string)
    requires s != [] && !IsSpace(s[0]) && !IsSpace(s[|s| - 1])
    ensures Strip(s) == s
  {
    assert DropSpaces(s) == s;
  }

  /** A digit string has no surrounding whitespace to strip. */
  lemma StripDigits(d: string)
    requires d != [] && AllDigits(d)
    ensures Strip(d) == d
  {
    assert !IsSpace(d[0]) && !IsSpace(d[|d| - 1]);
    assert DropSpaces(d) == d;
  }

  /** Nor has a minus sign followed by digits. */
  lemma StripSigned(d: string)
    requires d != [] && AllDigits(d)
    ensures Strip("-" + d) == "-" + d
  {
    var s := "-" + d;
    assert s[|s| - 1] == d[|d| - 1];
    assert !IsSpace(s[0]) && !IsSpace(s[|s| - 1]);
    assert DropSpaces(s) == s;
  }
}
