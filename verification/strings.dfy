/** String helpers the source takes from the JavaScript runtime: `toLowerCase`,
    `includes`, `startsWith`, `split`, `join` and `trim`. Strings are
    sequences of characters; case folding covers ASCII letters only. */
module Strings {

  /** `toLowerCase` on one character, restricted to ASCII letters. */
  function LowerChar(c: char): char {
    if 'A' <= c <= 'Z' then (c as int + 32) as char else c
  }

  function Lower(s: string): (r: string)
    ensures |r| == |s|
    ensures forall i :: 0 <= i < |s| ==> r[i] == LowerChar(s[i])
  {
    seq(|s|, i requires 0 <= i < |s| => LowerChar(s[i]))
  }

  /** Lower-casing twice is lower-casing once, so matching on a lower-cased
      query is insensitive to the case of the original. */
  lemma LowerIdempotent(s: string)
    ensures Lower(Lower(s)) == Lower(s)
  {
    assert forall i :: 0 <= i < |s| ==> LowerChar(LowerChar(s[i])) == LowerChar(s[i]);
  }

  predicate StartsWith(s: string, prefix: string) {
    |prefix| <= |s| && s[..|prefix|] == prefix
  }

  /** `t` occurs in `s` starting at position `i`. */
  predicate OccursAt(s: string, t: string, i: int) {
    0 <= i && i + |t| <= |s| && s[i..i + |t|] == t
  }

  /** `s.includes(t)`. */
  predicate Contains(s: string, t: string) {
    exists i :: 0 <= i <= |s| - |t| && OccursAt(s, t, i)
  }

  /** Containment is transitive: a string holding `t` holds every part of `t`. */
  lemma ContainsTransitive(s: string, t: string, u: string)
    requires Contains(s, t) && Contains(t, u)
    ensures Contains(s, u)
  {
    var i :| 0 <= i <= |s| - |t| && OccursAt(s, t, i);
    var j :| 0 <= j <= |t| - |u| && OccursAt(t, u, j);
    forall k | 0 <= k < |u|
      ensures s[i + j + k] == u[k]
    {
      assert t[j + k] == u[k];
      assert s[i + (j + k)] == t[j + k];
    }
    assert s[i + j..i + j + |u|] == u;
    assert OccursAt(s, u, i + j);
  }

  /** A string contains whatever sits between a prefix and a suffix of it. */
  lemma ContainsMiddle(a: string, t: string, b: string)
    ensures Contains(a + t + b, t)
  {
    var s := a + t + b;
    assert s[|a|..|a| + |t|] == t;
    assert OccursAt(s, t, |a|);
  }

  /** `s.split(c)`: the pieces between occurrences of `c`, empty pieces included. */
  function Split(s: string, c: char): (parts: seq<string>)
    ensures |parts| >= 1
    ensures forall i :: 0 <= i < |parts| ==> c !in parts[i]
  {
    if |s| == 0 then [""]
    else
      var rest := Split(s[1..], c);
      if s[0] == c then [""] + rest else [[s[0]] + rest[0]] + rest[1..]
  }

  /** `parts.join(sep)`. */
  function Join(parts: seq<string>, sep: string): string {
    if |parts| == 0 then ""
    else if |parts| == 1 then parts[0]
    else parts[0] + sep + Join(parts[1..], sep)
  }

  /** A join of non-empty parts starts with the first part's first character
      and ends with the last part's last character. */
  lemma {:induction false} JoinEnds(parts: seq<string>, sep: string)
    requires |parts| > 0 && forall i :: 0 <= i < |parts| ==> |parts[i]| > 0
    ensures var j := Join(parts, sep);
            |j| > 0 && j[0] == parts[0][0] && j[|j| - 1] == parts[|parts| - 1][|parts[|parts| - 1]| - 1]
  {
    if |parts| > 1 {
      JoinEnds(parts[1..], sep);
      assert parts[1..][|parts| - 2] == parts[|parts| - 1];
    }
  }

  /** Splitting and re-joining with the same separator gives back the string. */
  lemma {:induction false} JoinSplit(s: string, c: char)
    ensures Join(Split(s, c), [c]) == s
  {
    if |s| > 0 {
      var rest := Split(s[1..], c);
      JoinSplit(s[1..], c);
      if s[0] == c {
        assert ([""] + rest)[1..] == rest;
        assert s == [c] + s[1..];
      } else {
        var parts := [[s[0]] + rest[0]] + rest[1..];
        assert parts[1..] == rest[1..];
        if |rest| == 1 {
          assert s == [s[0]] + rest[0];
        } else {
          assert Join(rest, [c]) == rest[0] + [c] + Join(rest[1..], [c]);
          assert s == [s[0]] + s[1..];
        }
      }
    }
  }

  /** A string without the separator splits into itself alone. */
  lemma {:induction false} SplitWithoutSeparator(s: string, c: char)
    requires c !in s
    ensures Split(s, c) == [s]
  {
    if |s| > 0 {
      SplitWithoutSeparator(s[1..], c);
      assert s == [s[0]] + s[1..];
    }
  }

  /** Splitting distributes over a separator occurrence. */
  lemma {:induction false} SplitAtSeparator(a: string, b: string, c: char)
    ensures Split(a + [c] + b, c) == Split(a, c) + Split(b, c)
  {
    var s := a + [c] + b;
    if |a| == 0 {
      assert s[1..] == b;
    } else {
      assert s[1..] == a[1..] + [c] + b;
      SplitAtSeparator(a[1..], b, c);
    }
  }

  /** Appending a separator-free tail only extends the last piece. */
  lemma {:induction false} SplitAppendTail(x: string, q: string, c: char)
    requires c !in q
    ensures var p := Split(x, c);
            Split(x + q, c) == p[..|p| - 1] + [p[|p| - 1] + q]
  {
    if |x| == 0 {
      assert x + q == q;
      SplitWithoutSeparator(q, c);
    } else {
      var s := x + q;
      assert s[1..] == x[1..] + q;
      SplitAppendTail(x[1..], q, c);
      if x[0] == c {
        ExtendLastAfterEmpty(Split(x[1..], c), q);
      } else {
        ExtendLastAfterJoin(x[0], Split(x[1..], c), q);
      }
    }
  }

  /** Extending the last piece commutes with a new empty first piece. */
  lemma ExtendLastAfterEmpty(p: seq<string>, q: string)
    requires |p| > 0
    ensures var P := [""] + p;
            [""] + (p[..|p| - 1] + [p[|p| - 1] + q]) == P[..|P| - 1] + [P[|P| - 1] + q]
  {
    var P := [""] + p;
    assert P[..|P| - 1] == [""] + p[..|p| - 1];
  }

  /** Extending the last piece commutes with prepending a character to the
      first piece. */
  lemma ExtendLastAfterJoin(h: char, p: seq<string>, q: string)
    requires |p| > 0
    ensures var r := p[..|p| - 1] + [p[|p| - 1] + q];
            var P := [[h] + p[0]] + p[1..];
            [[h] + r[0]] + r[1..] == P[..|P| - 1] + [P[|P| - 1] + q]
  {
    var r := p[..|p| - 1] + [p[|p| - 1] + q];
    var P := [[h] + p[0]] + p[1..];
    if |p| == 1 {
      assert [h] + (p[0] + q) == ([h] + p[0]) + q;
    } else {
      assert r[0] == p[0];
      assert r[1..] == p[1..|p| - 1] + [p[|p| - 1] + q];
      assert P[..|P| - 1] == [[h] + p[0]] + p[1..|p| - 1];
    }
  }

  /** The characters JavaScript's `trim` removes: the WhiteSpace and
      LineTerminator code points of ECMA-262. They are tab, vertical tab,
      form feed, the byte-order mark, the space separators of Unicode
      category Zs, line feed, carriage return, and the line and paragraph
      separators. */
  predicate IsWhitespace(c: char) {
    || c == '\t' || c == '\U{B}' || c == '\U{C}' || c == ' ' || c == '\U{A0}' || c == '\U{FEFF}'
    || c == '\U{1680}' || ('\U{2000}' <= c <= '\U{200A}') || c == '\U{202F}' || c == '\U{205F}'
    || c == '\U{3000}'
    || c == '\n' || c == '\r' || c == '\U{2028}' || c == '\U{2029}'
  }

  function TrimStart(s: string): (r: string)
    ensures |r| <= |s| && r == s[|s| - |r|..]
    ensures forall i :: 0 <= i < |s| - |r| ==> IsWhitespace(s[i])
    ensures |r| == 0 || !IsWhitespace(r[0])
  {
    if |s| > 0 && IsWhitespace(s[0]) then TrimStart(s[1..]) else s
  }

  function TrimEnd(s: string): (r: string)
    ensures |r| <= |s| && r == s[..|r|]
    ensures forall i :: |r| <= i < |s| ==> IsWhitespace(s[i])
    ensures |r| == 0 || !IsWhitespace(r[|r| - 1])
  {
    if |s| > 0 && IsWhitespace(s[|s| - 1]) then TrimEnd(s[..|s| - 1]) else s
  }

  /** `s.trim()`: the slice of `s` left after removing the whitespace at
      both ends, so it neither starts nor ends with whitespace. */
  function Trim(s: string): (r: string)
    ensures var d := |s| - |TrimStart(s)|;
            && d + |r| <= |s| && r == s[d..d + |r|]
            && (forall i :: 0 <= i < d ==> IsWhitespace(s[i]))
            && (forall i :: d + |r| <= i < |s| ==> IsWhitespace(s[i]))
    ensures |r| == 0 || (!IsWhitespace(r[0]) && !IsWhitespace(r[|r| - 1]))
  {
    var t := TrimStart(s);
    var r := TrimEnd(t);
    TrimSlice(s, t, r);
    TrimTail(s, t, r);
    TrimHead(t, r);
    r
  }

  /** Where the two trims' results sit in `s`. */
  lemma TrimSlice(s: string, t: string, r: string)
    requires t == TrimStart(s) && r == TrimEnd(t)
    ensures |s| - |t| + |r| <= |s| && r == s[|s| - |t|..|s| - |t| + |r|]
  {
    PrefixOfSuffix(s, t, r);
  }

  /** What follows the trimmed text in `s` is whitespace. */
  lemma TrimTail(s: string, t: string, r: string)
    requires t == TrimStart(s) && r == TrimEnd(t)
    ensures forall i :: |s| - |t| + |r| <= i < |s| ==> IsWhitespace(s[i])
  {
    var d := |s| - |t|;
    assert t == s[d..];
    forall i | d + |r| <= i < |s|
      ensures IsWhitespace(s[i])
    {
      assert s[i] == t[i - d];
    }
  }

  /** Trimming the end keeps the first character. */
  lemma TrimHead(t: string, r: string)
    requires r == TrimEnd(t) && (|t| == 0 || !IsWhitespace(t[0]))
    ensures |r| == 0 || !IsWhitespace(r[0])
  {
    if |r| > 0 {
      assert r[0] == t[0];
    }
  }

  /** A prefix of a suffix of `s` is a slice of `s`. */
  lemma PrefixOfSuffix(s: string, t: string, r: string)
    requires |t| <= |s| && t == s[|s| - |t|..] && |r| <= |t| && r == t[..|r|]
    ensures r == s[|s| - |t|..|s| - |t| + |r|]
  {
  }

  /** Trimming a string that begins and ends with visible characters removes
      exactly the trailing blank appended to it. */
  lemma TrimPadded(x: string)
    requires |x| > 0 && !IsWhitespace(x[0]) && !IsWhitespace(x[|x| - 1])
    ensures Trim(x + " ") == x
  {
    var s := x + " ";
    assert TrimStart(s) == s;
    assert s[..|s| - 1] == x;
    assert TrimEnd(s) == TrimEnd(x);
  }

  // ------------------------------------------------------------- UTF-16

  /** The UTF-16 code units of one character: the character itself below
      U+10000, otherwise its surrogate pair. */
  function CodeUnits(c: char): (u: seq<int>)
    ensures 1 <= |u| <= 2
    ensures |u| == 1 <==> (c as int) < 0x10000
    ensures |u| == 1 ==> u[0] == c as int && !(0xD800 <= u[0] < 0xE000)
    ensures |u| == 2 ==> 0xD800 <= u[0] < 0xDC00 && 0xDC00 <= u[1] < 0xE000
  {
    if (c as int) < 0x10000 then [c as int]
    else
      var v := c as int - 0x10000;
      [0xD800 + v / 0x400, 0xDC00 + v % 0x400]
  }

  /** A string as JavaScript holds it: its UTF-16 code units. */
  function Utf16(s: string): (u: seq<int>)
    ensures |s| <= |u| <= 2 * |s|
  {
    if |s| == 0 then [] else CodeUnits(s[0]) + Utf16(s[1..])
  }

  /** The character at the head of a code-unit sequence and how many units
      it takes: a high surrogate and the unit after it form one character. */
  function DecodeHead(u: seq<int>): (int, nat)
    requires |u| > 0
  {
    if 0xD800 <= u[0] < 0xDC00 && |u| >= 2 then (0x10000 + (u[0] - 0xD800) * 0x400 + (u[1] - 0xDC00), 2)
    else (u[0], 1)
  }

  /** The head of an encoding decodes back to its first character. */
  lemma DecodeCodeUnits(c: char, rest: seq<int>)
    ensures DecodeHead(CodeUnits(c) + rest) == (c as int, |CodeUnits(c)|)
  {
    var u := CodeUnits(c) + rest;
    if (c as int) >= 0x10000 {
      var v := c as int - 0x10000;
      assert u[0] == 0xD800 + v / 0x400 && u[1] == 0xDC00 + v % 0x400;
      assert (v / 0x400) * 0x400 + v % 0x400 == v;
    }
  }

  /** Distinct strings have distinct UTF-16 encodings. */
  lemma {:induction false} Utf16Injective(a: string, b: string)
    requires Utf16(a) == Utf16(b)
    ensures a == b
  {
    if |a| > 0 && |b| > 0 {
      var u := Utf16(a);
      DecodeCodeUnits(a[0], Utf16(a[1..]));
      DecodeCodeUnits(b[0], Utf16(b[1..]));
      assert a[0] as int == b[0] as int;
      var n := |CodeUnits(a[0])|;
      assert Utf16(a[1..]) == u[n..] == Utf16(b[1..]);
      Utf16Injective(a[1..], b[1..]);
      assert a == [a[0]] + a[1..] && b == [b[0]] + b[1..];
    }
  }
}
