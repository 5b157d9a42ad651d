/**
 The two string operations the request handlers apply to client input:
 Python's argument-less `str.strip()` and `str.lower()`, plus Python's
 `s[k:]` slice with a possibly negative start.
 */
module PyText {

  /** The code points Python's `str.isspace` accepts, which is the set
      `str.strip()` removes when called without arguments. */
  predicate IsSpace(c: char) {
    var n := c as int;
    || (0x09 <= n <= 0x0D)
    || (0x1C <= n <= 0x20)
    || n == 0x85 || n == 0xA0 || n == 0x1680
    || (0x2000 <= n <= 0x200A)
    || n == 0x2028 || n == 0x2029 || n == 0x202F || n == 0x205F || n == 0x3000
  }

  /** The ASCII characters Python counts as whitespace: tab, line feed,
      vertical tab, form feed, carriage return, the four information
      separators U+001C to U+001F, and space. */
  const AsciiSpaces: string :=
    ['\t', '\n', '\U{B}', '\U{C}', '\r', '\U{1C}', '\U{1D}', '\U{1E}', '\U{1F}', ' ']

  /** Within ASCII, `IsSpace` accepts exactly the ten characters above; every
      other character it accepts lies beyond ASCII, at U+0085 or above. */
  lemma IsSpaceAscii(c: char)
    ensures c as int < 0x80 ==> (IsSpace(c) <==> c in AsciiSpaces)
    ensures IsSpace(c) && c !in AsciiSpaces ==> 0x85 <= c as int <= 0x3000
  {
  }

  /** Every character of `s` is whitespace (true of the empty string). */
  predicate AllSpace(s: string) {
    forall i :: 0 <= i < |s| ==> IsSpace(s[i])
  }

  /** Drops leading whitespace: the result is a suffix of `s`, what was
      dropped is all whitespace, and the result does not start with any. */
  function TrimLeft(s: string): (r: string)
    ensures |r| <= |s| && r == s[|s| - |r|..]
    ensures AllSpace(s[..|s| - |r|])
    ensures r == [] || !IsSpace(r[0])
  {
    if s != [] && IsSpace(s[0]) then
      var r := TrimLeft(s[1..]);
      assert s[..|s| - |r|] == [s[0]] + s[1..][..|s| - 1 - |r|];
      AllSpaceSplit([s[0]], s[1..][..|s| - 1 - |r|]);
      r
    else
      s
  }

  /** Drops trailing whitespace: the result is a prefix of `s`, what was
      dropped is all whitespace, and the result does not end with any. */
  function TrimRight(s: string): (r: string)
    ensures |r| <= |s| && r == s[..|r|]
    ensures AllSpace(s[|r|..])
    ensures r == [] || !IsSpace(r[|r| - 1])
  {
    if s != [] && IsSpace(s[|s| - 1]) then
      var r := TrimRight(s[..|s| - 1]);
      assert s[|r|..] == s[..|s| - 1][|r|..] + [s[|s| - 1]];
      AllSpaceSplit(s[..|s| - 1][|r|..], [s[|s| - 1]]);
      r
    else
      s
  }

  /** Python's `s.strip()`. The result neither starts nor ends with
      whitespace, and it is empty exactly when `s` is blank; `StripIsInfix`
      shows it is what lies between a blank head and a blank tail of `s`. */
  function Strip(s: string): (r: string)
    ensures r == [] <==> AllSpace(s)
    ensures r != [] ==> !IsSpace(r[0]) && !IsSpace(r[|r| - 1])
  {
    StripBlank(s);
    TrimRight(TrimLeft(s))
  }

  /** `r` sits in `s` at offset `lo`, with only whitespace before and after. */
  predicate StrippedAt(s: string, r: string, lo: int) {
    && 0 <= lo && lo + |r| <= |s|
    && s[lo..lo + |r|] == r
    && AllSpace(s[..lo]) && AllSpace(s[lo + |r|..])
  }

  /** The stripped string is `s` without a blank head and a blank tail. */
  lemma StripIsInfix(s: string)
    ensures exists lo :: StrippedAt(s, Strip(s), lo)
  {
    var t := TrimLeft(s);
    var r := TrimRight(t);
    var lo := |s| - |t|;
    assert r == Strip(s);
    assert t == s[lo..];
    assert s[lo..lo + |r|] == t[..|r|];
    assert s[lo + |r|..] == t[|r|..];
    assert StrippedAt(s, r, lo);
  }

  /** Both trims together leave nothing exactly when `s` is blank. */
  lemma StripBlank(s: string)
    ensures TrimRight(TrimLeft(s)) == [] <==> AllSpace(s)
  {
    var t := TrimLeft(s);
    AllSpaceAt(s, |s| - |t|);
    TrimRightBlank(t);
  }

  /** Trimming the end leaves nothing exactly when the string is blank. */
  lemma {:induction false} TrimRightBlank(t: string)
    ensures TrimRight(t) == [] <==> AllSpace(t)
    decreases |t|
  {
    if t != [] && AllSpace(t) {
      var u := t[..|t| - 1];
      assert t == u + [t[|t| - 1]];
      AllSpaceSplit(u, [t[|t| - 1]]);
      TrimRightBlank(u);
    }
    if TrimRight(t) == [] {
      assert t[0..] == t;
    }
  }

  /** A string is blank exactly when both sides of any cut are. */
  lemma AllSpaceAt(s: string, k: nat)
    requires k <= |s|
    ensures AllSpace(s) <==> AllSpace(s[..k]) && AllSpace(s[k..])
  {
    if AllSpace(s[..k]) && AllSpace(s[k..]) {
      forall i | 0 <= i < |s|
        ensures IsSpace(s[i])
      {
        if i < k {
          assert s[i] == s[..k][i];
        } else {
          assert s[i] == s[k..][i - k];
        }
      }
    }
  }

  /** A concatenation is blank exactly when both halves are. */
  lemma AllSpaceSplit(a: string, b: string)
    ensures AllSpace(a + b) <==> AllSpace(a) && AllSpace(b)
  {
    if AllSpace(a + b) {
      forall i | 0 <= i < |a|
        ensures IsSpace(a[i])
      {
        assert a[i] == (a + b)[i];
      }
      forall i | 0 <= i < |b|
        ensures IsSpace(b[i])
      {
        assert b[i] == (a + b)[|a| + i];
      }
    }
  }

  /** Python's `c.lower()` for the characters whose lower case is a single
      character that matters here: the ASCII capitals, and U+212A KELVIN SIGN,
      the one non-ASCII character that lower-cases to an ASCII letter. */
  function LowerChar(c: char): (d: char)
    ensures !('A' <= d <= 'Z') && d as int != 0x212A
    ensures !('A' <= c <= 'Z') && c as int != 0x212A ==> d == c
  {
    if 'A' <= c <= 'Z' then (c as int + 32) as char
    else if c as int == 0x212A then 'k'
    else c
  }

  /** Python's `s.lower()`, character by character. */
  function Lower(s: string): (r: string)
    ensures |r| == |s|
    ensures forall i :: 0 <= i < |s| ==> r[i] == LowerChar(s[i])
  {
    if s == [] then [] else [LowerChar(s[0])] + Lower(s[1..])
  }

  /** Lower-casing twice is lower-casing once. */
  lemma LowerIdempotent(s: string)
    ensures Lower(Lower(s)) == Lower(s)
  {
  }

  /** Python's `s[k:]`: a negative start counts from the end and both kinds
      of start are clamped into the sequence. */
  function PySliceFrom<T>(s: seq<T>, k: int): (r: seq<T>)
    ensures k < 0 ==> |r| == if -k < |s| then -k else |s|
    ensures 0 <= k ==> |r| == if k < |s| then |s| - k else 0
    ensures r == s[|s| - |r|..]
  {
    var start := if k < 0 then (if |s| + k < 0 then 0 else |s| + k)
                 else (if k < |s| then k else |s|);
    s[start..]
  }
}
