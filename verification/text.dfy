/** The Python `str` operations the modelled code relies on: `strip`,
    `lstrip`/`rstrip` of one character, `lower`/`casefold`, `in`, `replace`,
    `splitlines`, `join`, slicing and `str(int)`. */
module Text {

  /** Characters Python's `str.strip()` removes (Unicode white space). */
  predicate IsSpace(c: char) {
    c == ' ' || ('\t' <= c <= '\r') || ('\U{1C}' <= c <= '\U{1F}')
    || c == '\U{85}' || c == '\U{A0}' || c == '\U{1680}'
    || ('\U{2000}' <= c <= '\U{200A}') || c == '\U{2028}' || c == '\U{2029}'
    || c == '\U{202F}' || c == '\U{205F}' || c == '\U{3000}'
  }

  /** `s.lstrip()`: drops leading white space and nothing else. */
  function TrimStart(s: string): (r: string)
    ensures |r| <= |s| && r == s[|s| - |r|..]
    ensures r == [] || !IsSpace(r[0])
    ensures forall i :: 0 <= i < |s| - |r| ==> IsSpace(s[i])
    decreases |s|
  {
    if |s| > 0 && IsSpace(s[0]) then TrimStart(s[1..]) else s
  }

  /** `s.rstrip()`: drops trailing white space and nothing else. */
  function TrimEnd(s: string): (r: string)
    ensures |r| <= |s| && r == s[..|r|]
    ensures r == [] || !IsSpace(r[|r| - 1])
    ensures forall i :: |r| <= i < |s| ==> IsSpace(s[i])
    decreases |s|
  {
    if |s| > 0 && IsSpace(s[|s| - 1]) then TrimEnd(s[..|s| - 1]) else s
  }

  /** `s.strip()`: the longest infix with no white space at either end. */
  function Strip(s: string): (r: string)
    ensures |r| <= |s|
    ensures r == [] || (!IsSpace(r[0]) && !IsSpace(r[|r| - 1]))
  {
    TrimEnd(TrimStart(s))
  }

  /** `s.lstrip(c)` for a single character `c`. */
  function TrimStartChar(s: string, c: char): (r: string)
    ensures |r| <= |s| && r == s[|s| - |r|..]
    ensures r == [] || r[0] != c
    ensures forall i :: 0 <= i < |s| - |r| ==> s[i] == c
    decreases |s|
  {
    if |s| > 0 && s[0] == c then TrimStartChar(s[1..], c) else s
  }

  /** `s.rstrip(c)` for a single character `c`. */
  function TrimEndChar(s: string, c: char): (r: string)
    ensures |r| <= |s| && r == s[..|r|]
    ensures r == [] || r[|r| - 1] != c
    ensures forall i :: |r| <= i < |s| ==> s[i] == c
    decreases |s|
  {
    if |s| > 0 && s[|s| - 1] == c then TrimEndChar(s[..|s| - 1], c) else s
  }

  /** Case mapping of one character; only the ASCII letters are mapped. */
  function LowerChar(c: char): char {
    if 'A' <= c <= 'Z' then (c as int + 32) as char else c
  }

  /** `s.lower()`, restricted to ASCII case mapping. */
  function Lower(s: string): (r: string)
    ensures |r| == |s|
    ensures forall i :: 0 <= i < |s| ==> r[i] == LowerChar(s[i])
  {
    seq(|s|, i requires 0 <= i < |s| => LowerChar(s[i]))
  }

  /** `s.casefold()`. On the ASCII range it coincides with `lower()`, and
      that is the range this model covers. */
  function CaseFold(s: string): string {
    Lower(s)
  }

  lemma LowerIdempotent(s: string)
    ensures Lower(Lower(s)) == Lower(s)
  {
  }

  /** `needle in hay`. */
  predicate Contains(hay: string, needle: string)
    decreases |hay|
  {
    needle <= hay || (|hay| > 0 && Contains(hay[1..], needle))
  }

  /** `needle` occurs in `hay` starting at index `i`. */
  predicate OccursAt(hay: string, needle: string, i: int) {
    0 <= i && i + |needle| <= |hay| && hay[i..i + |needle|] == needle
  }

  /** An occurrence past the first character is an occurrence in the tail. */
  lemma OccursInTail(hay: string, needle: string, i: int)
    requires |hay| > 0 && i >= 1
    ensures OccursAt(hay, needle, i) <==> OccursAt(hay[1..], needle, i - 1)
  {
    if i + |needle| <= |hay| {
      assert hay[1..][i - 1..i - 1 + |needle|] == hay[i..i + |needle|];
    }
  }

  /** `Contains` means an occurrence at some index. */
  lemma {:induction false} ContainsIff(hay: string, needle: string)
    ensures Contains(hay, needle) <==> exists i :: OccursAt(hay, needle, i)
    decreases |hay|
  {
    if needle <= hay {
      assert OccursAt(hay, needle, 0);
    } else if |hay| > 0 {
      ContainsIff(hay[1..], needle);
      if exists i :: OccursAt(hay, needle, i) {
        var i :| OccursAt(hay, needle, i);
        assert i != 0;
        OccursInTail(hay, needle, i);
      }
      if Contains(hay[1..], needle) {
        var j :| OccursAt(hay[1..], needle, j);
        OccursInTail(hay, needle, j + 1);
      }
    }
  }

  /** `s.endswith(suffix)`. */
  predicate EndsWith(s: string, suffix: string) {
    |suffix| <= |s| && s[|s| - |suffix|..] == suffix
  }

  /** `sep.join(parts)`. */
  function Join(sep: string, parts: seq<string>): string
    decreases |parts|
  {
    if |parts| == 0 then ""
    else if |parts| == 1 then parts[0]
    else parts[0] + sep + Join(sep, parts[1..])
  }

  /** A join starts with its first part and ends with its last. */
  lemma {:induction false} JoinEnds(sep: string, parts: seq<string>)
    requires |parts| > 0
    ensures parts[0] <= Join(sep, parts)
    ensures EndsWith(Join(sep, parts), parts[|parts| - 1])
    decreases |parts|
  {
    if |parts| > 1 {
      JoinEnds(sep, parts[1..]);
      var rest := Join(sep, parts[1..]);
      assert Join(sep, parts) == (parts[0] + sep) + rest;
    }
  }

  /** An occurrence survives putting text in front. */
  lemma {:induction false} ContainsAfter(pre: string, hay: string, needle: string)
    requires Contains(hay, needle)
    ensures Contains(pre + hay, needle)
    decreases |pre|
  {
    if |pre| == 0 {
      assert pre + hay == hay;
    } else {
      ContainsAfter(pre[1..], hay, needle);
      assert (pre + hay)[1..] == pre[1..] + hay;
    }
  }

  /** Every part occurs in the join. */
  lemma {:induction false} JoinContainsPart(sep: string, parts: seq<string>, k: int)
    requires 0 <= k < |parts|
    ensures Contains(Join(sep, parts), parts[k])
    decreases |parts|
  {
    if k == 0 {
      JoinEnds(sep, parts);
    } else {
      assert parts[k] == parts[1..][k - 1];
      JoinContainsPart(sep, parts[1..], k - 1);
      ContainsAfter(parts[0] + sep, Join(sep, parts[1..]), parts[k]);
    }
  }

  /** `s.replace(pat, rep)`: a left-to-right scan replacing non-overlapping
      occurrences; an empty `pat` inserts `rep` around every character. */
  function ReplaceAll(s: string, pat: string, rep: string): string
    decreases |s|
  {
    if |pat| == 0 then
      if |s| == 0 then rep else rep + [s[0]] + ReplaceAll(s[1..], pat, rep)
    else if pat <= s then rep + ReplaceAll(s[|pat|..], pat, rep)
    else if |s| == 0 then []
    else [s[0]] + ReplaceAll(s[1..], pat, rep)
  }

  /** Replacing a pattern that does not occur changes nothing. */
  lemma {:induction false} ReplaceAbsent(s: string, pat: string, rep: string)
    requires |pat| > 0 && !Contains(s, pat)
    ensures ReplaceAll(s, pat, rep) == s
    decreases |s|
  {
    if |s| > 0 {
      ReplaceAbsent(s[1..], pat, rep);
    }
  }

  /** The first character of a replacement by a one-character string. */
  lemma ReplaceHead(t: string, pat: string, rep: string)
    requires |pat| > 0 && |rep| == 1 && |t| > 0
    ensures |ReplaceAll(t, pat, rep)| > 0
    ensures ReplaceAll(t, pat, rep)[0] == if pat <= t then rep[0] else t[0]
  {
  }

  /** One step of the replacement scan over a non-empty string. */
  lemma ReplaceStep(s: string, pat: string, rep: string)
    requires |pat| > 0 && |s| > 0
    ensures ReplaceAll(s, pat, rep)
            == if pat <= s then rep + ReplaceAll(s[|pat|..], pat, rep)
               else [s[0]] + ReplaceAll(s[1..], pat, rep)
  {
  }

  /** A two-character pattern splits a replacement over a concatenation
      unless an occurrence straddles the seam. */
  lemma {:induction false} ReplaceAppend(x: string, z: string, pat: string, rep: string)
    requires |pat| == 2
    requires !(|x| > 0 && |z| > 0 && x[|x| - 1] == pat[0] && z[0] == pat[1])
    ensures ReplaceAll(x + z, pat, rep) == ReplaceAll(x, pat, rep) + ReplaceAll(z, pat, rep)
    decreases |x|
  {
    if |x| == 0 {
      assert x + z == z;
    } else if |x| == 1 {
      ReplaceAppendSingle(x, z, pat, rep);
    } else {
      var xz := x + z;
      var k := if pat <= x then 2 else 1;
      var y := x[k..];
      assert xz[..2] == x[..2];
      assert pat <= xz <==> pat <= x;
      assert xz[k..] == y + z;
      assert |y| > 0 ==> y[|y| - 1] == x[|x| - 1];
      ReplaceAppend(y, z, pat, rep);
      ReplaceStep(xz, pat, rep);
      ReplaceStep(x, pat, rep);
      var head := if k == 2 then rep else [x[0]];
      assert ReplaceAll(xz, pat, rep) == head + ReplaceAll(y + z, pat, rep);
      assert ReplaceAll(x, pat, rep) == head + ReplaceAll(y, pat, rep);
      ConcatAssoc(head, ReplaceAll(y, pat, rep), ReplaceAll(z, pat, rep));
    }
  }

  lemma ConcatAssoc(a: string, b: string, c: string)
    ensures a + (b + c) == (a + b) + c
  {
  }

  lemma ReplaceAppendSingle(x: string, z: string, pat: string, rep: string)
    requires |pat| == 2 && |x| == 1
    requires !(|z| > 0 && x[0] == pat[0] && z[0] == pat[1])
    ensures ReplaceAll(x + z, pat, rep) == ReplaceAll(x, pat, rep) + ReplaceAll(z, pat, rep)
  {
    var xz := x + z;
    assert !(pat <= xz) by {
      if |z| > 0 {
        assert xz[..2] == [x[0], z[0]];
      }
    }
    assert xz[1..] == z;
    ReplaceStep(xz, pat, rep);
    ReplaceStep(x, pat, rep);
  }

  /** Replacing a two-character pattern by one character that belongs to
      neither `p[0]` nor `p[1]` leaves no occurrence of `p`, when `p` is the
      pattern itself or did not occur before. */
  lemma {:induction false} NoPairAfterReplace(s: string, pat: string, rep: string, p: string)
    requires |pat| == 2 && |rep| == 1 && |p| == 2
    requires rep[0] != p[0] && rep[0] != p[1]
    requires p == pat || !Contains(s, p)
    ensures !Contains(ReplaceAll(s, pat, rep), p)
    decreases |s|
  {
    var r := ReplaceAll(s, pat, rep);
    if |s| == 0 {
    } else if pat <= s {
      assert r == rep + ReplaceAll(s[2..], pat, rep);
      assert p != pat ==> !Contains(s[2..], p) by {
        if p != pat && Contains(s[2..], p) {
          assert Contains(s[1..], p);
        }
      }
      NoPairAfterReplace(s[2..], pat, rep, p);
      assert r[1..] == ReplaceAll(s[2..], pat, rep);
      assert !(p <= r);
    } else {
      var t := ReplaceAll(s[1..], pat, rep);
      assert r == [s[0]] + t;
      NoPairAfterReplace(s[1..], pat, rep, p);
      assert r[1..] == t;
      if |s| > 1 {
        ReplaceHead(s[1..], pat, rep);
        assert s[..2] == [s[0], s[1]];
        assert !(p <= s);
        assert r[..2] == [s[0], t[0]];
      } else {
        assert |r| == 1;
      }
    }
  }

  /** Python's `str.splitlines` line boundaries. */
  predicate IsLineBreak(c: char) {
    c == '\n' || c == '\r' || c == '\U{B}' || c == '\U{C}' || c == '\U{1C}'
    || c == '\U{1D}' || c == '\U{1E}' || c == '\U{85}' || c == '\U{2028}' || c == '\U{2029}'
  }

  /** Length of the first line of `s`: the index of the first boundary. */
  function LineLength(s: string): (n: nat)
    ensures n <= |s|
    ensures forall i :: 0 <= i < n ==> !IsLineBreak(s[i])
    ensures n < |s| ==> IsLineBreak(s[n])
    decreases |s|
  {
    if |s| == 0 || IsLineBreak(s[0]) then 0 else 1 + LineLength(s[1..])
  }

  /** `s.splitlines()`: lines without their terminators ("\r\n" counts as
      one terminator); a trailing terminator yields no empty last line. */
  function SplitLines(s: string): seq<string>
    decreases |s|
  {
    if |s| == 0 then []
    else
      var n := LineLength(s);
      if n == |s| then [s]
      else
        var w := if s[n] == '\r' && n + 1 < |s| && s[n + 1] == '\n' then 2 else 1;
        [s[..n]] + SplitLines(s[n + w..])
  }

  function DigitChar(d: nat): char
    requires d < 10
  {
    ('0' as int + d) as char
  }

  function Digits(n: nat): string
    decreases n
  {
    if n < 10 then [DigitChar(n)] else Digits(n / 10) + [DigitChar(n % 10)]
  }

  /** `str(n)` for an integer. */
  function IntToString(n: int): string {
    if n < 0 then "-" + Digits(-n) else Digits(n)
  }

  /** Python's normalisation of a slice bound against a length. */
  function SliceIndex(len: nat, i: int): (k: nat)
    ensures k <= len
  {
    if i < 0 then (if len + i < 0 then 0 else len + i)
    else if i > len then len
    else i
  }

  /** `s[lo:hi]` with Python's clamping and negative-index rules. */
  function Slice(s: string, lo: int, hi: int): string {
    var a := SliceIndex(|s|, lo);
    var b := SliceIndex(|s|, hi);
    if a < b then s[a..b] else []
  }
}
