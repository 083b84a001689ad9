/** Text helpers standing for the JavaScript string methods the client uses. */
module Strings {

  /** `s.startsWith(prefix)` */
  predicate StartsWith(s: string, prefix: string) {
    |prefix| <= |s| && s[..|prefix|] == prefix
  }

  /** `s.endsWith(suffix)` */
  predicate EndsWith(s: string, suffix: string) {
    |suffix| <= |s| && s[|s| - |suffix|..] == suffix
  }

  /** `sub` occurs in `s` starting at position `i`. */
  predicate OccursAt(s: string, sub: string, i: int) {
    0 <= i && i + |sub| <= |s| && s[i..i + |sub|] == sub
  }

  lemma OccursAtTail(s: string, sub: string)
    requires |s| > 0
    ensures forall j :: 0 <= j ==> (OccursAt(s[1..], sub, j) <==> OccursAt(s, sub, j + 1))
  {
    forall j | 0 <= j ensures OccursAt(s[1..], sub, j) <==> OccursAt(s, sub, j + 1) {
      if j + 1 + |sub| <= |s| {
        assert s[1..][j..j + |sub|] == s[j + 1..j + 1 + |sub|];
      }
    }
  }

  /** `s.includes(sub)` for a substring, computed by scanning from the left. */
  predicate Includes(s: string, sub: string)
    ensures Includes(s, sub) <==> exists i :: OccursAt(s, sub, i)
    decreases |s|
  {
    if OccursAt(s, sub, 0) then true
    else if |s| == 0 then false
    else
      OccursAtTail(s, sub);
      assert forall i :: OccursAt(s, sub, i) ==> OccursAt(s[1..], sub, i - 1);
      Includes(s[1..], sub)
  }

  /** `s.indexOf(c)`: the first position of `c`, or -1 when `c` does not occur. */
  function IndexOf(s: string, c: char): (r: int)
    ensures -1 <= r < |s|
    ensures r == -1 <==> c !in s
    ensures 0 <= r ==> r < |s| && s[r] == c && c !in s[..r]
  {
    if |s| == 0 then -1
    else if s[0] == c then 0
    else
      var k := IndexOf(s[1..], c);
      assert s[1..] == s[..|s|][1..];
      if k == -1 then -1
      else
        assert s[..k + 1] == [s[0]] + s[1..][..k];
        k + 1
  }

  /** The first occurrence is unique: a position holding `c` with no `c` before it is `IndexOf`. */
  lemma IndexOfIsFirst(s: string, c: char, i: int)
    requires 0 <= i < |s| && s[i] == c && c !in s[..i]
    ensures IndexOf(s, c) == i
  {
  }

  /** `s.replace(" ", "T")` with a string pattern: only the FIRST occurrence is replaced. */
  function ReplaceFirst(s: string, from: char, to: char): (r: string)
    ensures |r| == |s|
    ensures from !in s ==> r == s
    ensures from in s ==>
      var i := IndexOf(s, from);
      r[..i] == s[..i] && r[i] == to && r[i + 1..] == s[i + 1..]
  {
    var i := IndexOf(s, from);
    if i < 0 then s else s[..i] + [to] + s[i + 1..]
  }

  /** `s.split(c)[0]`: everything before the first `c`, or all of `s`. */
  function BeforeFirst(s: string, c: char): (r: string)
    ensures c !in r
    ensures StartsWith(s, r)
    ensures |r| < |s| ==> s[|r|] == c
  {
    var i := IndexOf(s, c);
    if i < 0 then s else s[..i]
  }

  /** `parts.join(sep)` */
  function Join(parts: seq<string>, sep: string): string
  {
    if |parts| == 0 then ""
    else if |parts| == 1 then parts[0]
    else parts[0] + sep + Join(parts[1..], sep)
  }

  /** `s.indexOf(sep)` for a non-empty separator: the first position where it occurs, or -1. */
  function Find(s: string, sep: string): (k: int)
    requires sep != []
    ensures -1 <= k < |s|
    ensures k >= 0 ==> OccursAt(s, sep, k)
    decreases |s|
  {
    if |s| < |sep| then -1
    else if StartsWith(s, sep) then 0
    else
      var k := Find(s[1..], sep);
      if k < 0 then -1
      else
        assert s[1..][k..k + |sep|] == s[k + 1..k + 1 + |sep|];
        k + 1
  }

  /** `s.split(sep)` for a non-empty separator: the pieces between successive occurrences. */
  function Split(s: string, sep: string): (parts: seq<string>)
    requires sep != []
    ensures |parts| >= 1
    decreases |s|
  {
    var k := Find(s, sep);
    if k < 0 then [s] else [s[..k]] + Split(s[k + |sep|..], sep)
  }

  /** Text without the separator's first character holds no occurrence of it. */
  lemma {:induction false} FindAbsent(s: string, sep: string)
    requires sep != [] && sep[0] !in s
    ensures Find(s, sep) == -1
    decreases |s|
  {
    if |s| >= |sep| {
      assert s[0] != sep[0];
      assert s[..|sep|][0] == s[0];
      assert sep[0] !in s[1..];
      FindAbsent(s[1..], sep);
    }
  }

  /** After a piece free of the separator's first character, the separator is the first occurrence. */
  lemma {:induction false} FindAfterPiece(p: string, sep: string, t: string)
    requires sep != [] && sep[0] !in p
    ensures Find(p + sep + t, sep) == |p|
    decreases |p|
  {
    var s := p + sep + t;
    if p == [] {
      assert s[..|sep|] == sep;
    } else {
      assert s[..|sep|][0] == p[0];
      assert p[0] != sep[0];
      assert s[1..] == p[1..] + sep + t;
      assert sep[0] !in p[1..];
      FindAfterPiece(p[1..], sep, t);
    }
  }

  /** Splitting a join gives the parts back when no part holds the separator's first character. */
  lemma {:induction false} SplitJoin(parts: seq<string>, sep: string)
    requires sep != [] && parts != []
    requires forall p :: p in parts ==> sep[0] !in p
    ensures Split(Join(parts, sep), sep) == parts
    decreases |parts|
  {
    if |parts| == 1 {
      FindAbsent(parts[0], sep);
    } else {
      var rest := Join(parts[1..], sep);
      assert Join(parts, sep) == parts[0] + sep + rest;
      assert parts[0] in parts;
      SplitJoin(parts[1..], sep);
      SplitPiece(parts[0], sep, rest);
      assert parts == [parts[0]] + parts[1..];
    }
  }

  /** One step of a split: the piece before the first separator, then the split of the rest. */
  lemma SplitPiece(p: string, sep: string, t: string)
    requires sep != [] && sep[0] !in p
    ensures Split(p + sep + t, sep) == [p] + Split(t, sep)
  {
    var s := p + sep + t;
    FindAfterPiece(p, sep, t);
    assert s[..|p|] == p;
    assert s[|p| + |sep|..] == t;
  }

  function Digit(d: nat): char
    requires d < 10
  {
    "0123456789"[d]
  }

  predicate IsDigit(c: char) {
    '0' <= c <= '9'
  }

  /** `String(n)` for a non-negative integer: its decimal digits. */
  function NatToString(n: nat): (r: string)
    ensures |r| > 0
    ensures forall i :: 0 <= i < |r| ==> IsDigit(r[i])
  {
    if n < 10 then [Digit(n)] else NatToString(n / 10) + [Digit(n % 10)]
  }

  /** `String(i)` for an integer: a minus sign before the digits of a negative number. */
  function IntToString(i: int): (r: string)
    ensures |r| > 0
    ensures forall k :: 0 <= k < |r| ==> IsDigit(r[k]) || r[k] == '-'
  {
    if i < 0 then "-" + NatToString(-i) else NatToString(i)
  }

  /** Lower-casing of one character; only the ASCII letters are folded. */
  function Lower(c: char): char {
    if 'A' <= c <= 'Z' then (c as int + 32) as char else c
  }

  /** `s.toLowerCase()`, restricted to ASCII case folding. */
  function ToLower(s: string): (r: string)
    ensures |r| == |s|
    ensures forall i :: 0 <= i < |s| ==> r[i] == Lower(s[i])
  {
    seq(|s|, i requires 0 <= i < |s| => Lower(s[i]))
  }

  /** `hay.toLowerCase().includes(needle.toLowerCase())`, the case-insensitive substring match. */
  predicate IncludesIgnoringCase(hay: string, needle: string) {
    Includes(ToLower(hay), ToLower(needle))
  }

  /** The characters JavaScript's `\s` class matches. */
  predicate IsWhitespace(c: char) {
    c == ' ' || c == '\t' || c == '\n' || c == '\r' || c == '\U{000B}' || c == '\U{000C}'
    || c == '\U{00A0}' || c == '\U{1680}' || ('\U{2000}' <= c <= '\U{200A}')
    || c == '\U{2028}' || c == '\U{2029}' || c == '\U{202F}' || c == '\U{205F}'
    || c == '\U{3000}' || c == '\U{FEFF}'
  }
}
