/** String operations with the meaning they have in the two languages of the system:
    Python 3 (`p in s`, `find`, `rfind`, slicing, `strip`, `split`, `lower`) on the server
    and JavaScript (`trim`, `split`, `toLowerCase`) in the browser. Characters are Unicode
    scalar values, as Python's `str` indexes them. */
module Text {

  /** `p` occurs in `s` starting at index `i`. */
  predicate OccursAt(s: string, p: string, i: int)
  {
    0 <= i && i + |p| <= |s| && s[i..i + |p|] == p
  }

  /** Python `s.startswith(p)`. */
  predicate StartsWith(s: string, p: string)
  {
    |p| <= |s| && s[..|p|] == p
  }

  /** Python `s.find(p, start)` for a non-negative `start`: the first occurrence of `p`
      at or after `start`, or -1 when there is none. */
  function Find(s: string, p: string, start: nat): (r: int)
    ensures r == -1 || (start <= r && OccursAt(s, p, r))
    ensures forall i :: start <= i && (r == -1 || i < r) ==> !OccursAt(s, p, i)
    decreases |s| - start
  {
    if start + |p| > |s| then -1
    else if OccursAt(s, p, start) then start
    else Find(s, p, start + 1)
  }

  /** Python `p in s`. */
  function Contains(s: string, p: string): (r: bool)
    ensures r <==> exists i :: OccursAt(s, p, i)
  {
    Find(s, p, 0) >= 0
  }

  /** The last occurrence of `p` in `s` that starts at or before `k`, or -1. */
  function LastAtOrBefore(s: string, p: string, k: int): (r: int)
    ensures r == -1 || (0 <= r <= k && OccursAt(s, p, r))
    ensures forall i :: r < i <= k ==> !OccursAt(s, p, i)
    decreases k + 1
  {
    if k < 0 then -1
    else if OccursAt(s, p, k) then k
    else LastAtOrBefore(s, p, k - 1)
  }

  /** Python `s.rfind(p)`: the last occurrence of `p`, or -1. */
  function RFind(s: string, p: string): (r: int)
    ensures r == -1 || OccursAt(s, p, r)
    ensures forall i :: r < i ==> !OccursAt(s, p, i)
  {
    LastAtOrBefore(s, p, |s| - |p|)
  }

  /** Where Python puts a slice bound `i` in a sequence of length `n`: a negative bound
      counts from the end, and the result is clamped to [0, n]. */
  function SliceBound(i: int, n: nat): (b: nat)
    ensures b <= n
    ensures 0 <= i <= n ==> b == i
    ensures i < 0 && n + i >= 0 ==> b == n + i
  {
    if i < 0 then (if n + i < 0 then 0 else n + i)
    else if i > n then n
    else i
  }

  /** Python `s[a:b]`. */
  function Slice(s: string, a: int, b: int): (r: string)
    ensures OccursAt(s, r, SliceBound(a, |s|))
    ensures 0 <= a <= b <= |s| ==> r == s[a..b]
    ensures 0 <= a < |s| && b == -1 ==> r == s[a..|s| - 1]
  {
    var lo, hi := SliceBound(a, |s|), SliceBound(b, |s|);
    if lo < hi then s[lo..hi] else []
  }

  /** Python `str.isspace()` for one character. */
  predicate IsPyWhitespace(c: char)
  {
    var n := c as int;
    n == 0x20 || 0x09 <= n <= 0x0D || 0x1C <= n <= 0x1F || n == 0x85 || n == 0xA0 || n == 0x1680
    || 0x2000 <= n <= 0x200A || n == 0x2028 || n == 0x2029 || n == 0x202F || n == 0x205F || n == 0x3000
  }

  /** The characters JavaScript's `String.prototype.trim` removes: white space and line terminators. */
  predicate IsJsWhitespace(c: char)
  {
    var n := c as int;
    n == 0x20 || 0x09 <= n <= 0x0D || n == 0xA0 || n == 0x1680 || 0x2000 <= n <= 0x200A
    || n == 0x2028 || n == 0x2029 || n == 0x202F || n == 0x205F || n == 0x3000 || n == 0xFEFF
  }

  /** The index of the first character at or after `i` that does not satisfy `ws`, or |s|. */
  function SkipForward(s: string, ws: char -> bool, i: nat): (k: nat)
    requires i <= |s|
    ensures i <= k <= |s|
    ensures forall j :: i <= j < k ==> ws(s[j])
    ensures k < |s| ==> !ws(s[k])
    decreases |s| - i
  {
    if i < |s| && ws(s[i]) then SkipForward(s, ws, i + 1) else i
  }

  /** The index just past the last character before `j`, and not before `lo`, that does
      not satisfy `ws`, or `lo`. */
  function SkipBackward(s: string, ws: char -> bool, lo: nat, j: nat): (k: nat)
    requires lo <= j <= |s|
    ensures lo <= k <= j
    ensures forall m :: k <= m < j ==> ws(s[m])
    ensures k > lo ==> !ws(s[k - 1])
    decreases j
  {
    if j > lo && ws(s[j - 1]) then SkipBackward(s, ws, lo, j - 1) else j
  }

  /** `r` is the piece of `s` that starts at `lo`, and everything around it satisfies `ws`. */
  predicate StrippedAt(s: string, r: string, lo: int, ws: char -> bool)
  {
    OccursAt(s, r, lo)
    && (forall i :: 0 <= i < lo ==> ws(s[i]))
    && (forall i :: lo + |r| <= i < |s| ==> ws(s[i]))
  }

  /** `s` without leading and trailing characters that satisfy `ws`. */
  function Strip(s: string, ws: char -> bool): (r: string)
    ensures exists lo :: StrippedAt(s, r, lo, ws)
    ensures r != [] ==> !ws(r[0]) && !ws(r[|r| - 1])
    ensures r == [] <==> forall i :: 0 <= i < |s| ==> ws(s[i])
  {
    var lo := SkipForward(s, ws, 0);
    var hi := SkipBackward(s, ws, lo, |s|);
    assert StrippedAt(s, s[lo..hi], lo, ws);
    s[lo..hi]
  }

  /** Python `s.strip()`. */
  function PyStrip(s: string): string
  {
    Strip(s, IsPyWhitespace)
  }

  /** JavaScript `s.trim()`. */
  function JsTrim(s: string): string
  {
    Strip(s, IsJsWhitespace)
  }

  /** Stripping changes nothing when neither end is white space. */
  lemma StripUnchanged(s: string, ws: char -> bool)
    requires s == [] || (!ws(s[0]) && !ws(s[|s| - 1]))
    ensures Strip(s, ws) == s
  {
    assert s[0..|s|] == s;
  }

  /** Stripping twice is stripping once. */
  lemma StripIdempotent(s: string, ws: char -> bool)
    ensures Strip(Strip(s, ws), ws) == Strip(s, ws)
  {
    StripUnchanged(Strip(s, ws), ws);
  }

  /** The lower-case form of one character, as Python's `str.lower()` and JavaScript's
      `toLowerCase()` give it, for every character whose lower-case form contains an
      ASCII letter: A-Z, KELVIN SIGN and LATIN CAPITAL LETTER I WITH DOT ABOVE. */
  function LowerChar(c: char): (r: string)
  {
    if 'A' <= c <= 'Z' then [(c as int + 32) as char]
    else if c == '\U{212A}' then "k"
    else if c == '\U{130}' then ['i', '\U{307}']
    else [c]
  }

  /** Python `s.lower()` / JavaScript `s.toLowerCase()` (see LowerChar). */
  function Lower(s: string): (r: string)
    ensures |r| >= |s|
    ensures forall i :: 0 <= i < |r| ==> !('A' <= r[i] <= 'Z')
  {
    if s == [] then [] else LowerChar(s[0]) + Lower(s[1..])
  }

  lemma {:induction false} LowerAppend(a: string, b: string)
    ensures Lower(a + b) == Lower(a) + Lower(b)
  {
    if a == [] {
      assert a + b == b;
    } else {
      assert (a + b)[0] == a[0];
      assert (a + b)[1..] == a[1..] + b;
      LowerAppend(a[1..], b);
      calc {
        Lower(a + b);
        LowerChar(a[0]) + Lower(a[1..] + b);
        LowerChar(a[0]) + (Lower(a[1..]) + Lower(b));
        (LowerChar(a[0]) + Lower(a[1..])) + Lower(b);
      }
    }
  }

  /** A lower-cased character is its own lower-case form. */
  lemma LowerCharLowered(c: char)
    ensures Lower(LowerChar(c)) == LowerChar(c)
  {
    var h := LowerChar(c);
    if c == '\U{130}' {
      assert h == ['i'] + ['\U{307}'];
      LowerAppend(['i'], ['\U{307}']);
    } else {
      assert Lower(h) == LowerChar(h[0]) + Lower([]);
    }
  }

  /** Lower-casing a second time changes nothing. */
  lemma {:induction false} LowerIdempotent(s: string)
    ensures Lower(Lower(s)) == Lower(s)
  {
    if s != [] {
      LowerAppend(LowerChar(s[0]), Lower(s[1..]));
      LowerIdempotent(s[1..]);
      LowerCharLowered(s[0]);
    }
  }

  /** An occurrence in `a` is an occurrence in `a + b`, and one in `b` is one in `a + b`. */
  lemma ContainsInConcat(a: string, b: string, p: string)
    ensures Contains(a, p) ==> Contains(a + b, p)
    ensures Contains(b, p) ==> Contains(a + b, p)
  {
    if Contains(a, p) {
      var i :| OccursAt(a, p, i);
      assert (a + b)[i..i + |p|] == a[i..i + |p|];
      assert OccursAt(a + b, p, i);
    }
    if Contains(b, p) {
      var i :| OccursAt(b, p, i);
      var ab := a + b;
      assert ab[|a|..] == b;
      assert ab[|a| + i..|a| + i + |p|] == ab[|a|..][i..i + |p|];
      assert OccursAt(a + b, p, |a| + i);
    }
  }

  /** Stripping keeps a piece of the string. */
  lemma StripIsPiece(s: string, ws: char -> bool)
    ensures Contains(s, Strip(s, ws))
  {
    var lo :| StrippedAt(s, Strip(s, ws), lo, ws);
    assert OccursAt(s, Strip(s, ws), lo);
  }

  /** A piece of a piece of `s` is a piece of `s`. */
  lemma PieceOfPiece(s: string, p: string, q: string)
    requires Contains(s, p) && Contains(p, q)
    ensures Contains(s, q)
  {
    var i :| OccursAt(s, p, i);
    var j :| OccursAt(p, q, j);
    ContainsInfix(s, p, i, q, j);
  }

  /** An occurrence of `p` contains an occurrence of every piece of `p`. */
  lemma ContainsInfix(s: string, p: string, i: int, q: string, j: int)
    requires OccursAt(s, p, i) && OccursAt(p, q, j)
    ensures OccursAt(s, q, i + j)
  {
    forall k | 0 <= k < |q|
      ensures s[i + j..i + j + |q|][k] == q[k]
    {
      assert q[k] == p[j + k] == s[i..i + |p|][j + k];
    }
  }

  /** The number of occurrences of `c` in `s`. */
  function CountChar(s: string, c: char): nat
  {
    if s == [] then 0 else (if s[0] == c then 1 else 0) + CountChar(s[1..], c)
  }

  /** Python `s.split(c)` and JavaScript `s.split(c)` for a one-character separator. */
  function Split(s: string, c: char): (parts: seq<string>)
    ensures |parts| >= 1
    ensures forall k :: 0 <= k < |parts| ==> c !in parts[k]
  {
    if s == [] then [[]]
    else
      var rest := Split(s[1..], c);
      if s[0] == c then [[]] + rest else [[s[0]] + rest[0]] + rest[1..]
  }

  /** Python `c.join(parts)`. */
  function Join(parts: seq<string>, c: char): string
  {
    if parts == [] then []
    else if |parts| == 1 then parts[0]
    else parts[0] + [c] + Join(parts[1..], c)
  }

  /** Splitting yields one more piece than there are separators. */
  lemma {:induction false} SplitCount(s: string, c: char)
    ensures |Split(s, c)| == CountChar(s, c) + 1
  {
    if s != [] {
      SplitCount(s[1..], c);
    }
  }

  /** Joining the pieces of a split gives back the string. */
  lemma {:induction false} JoinSplit(s: string, c: char)
    ensures Join(Split(s, c), c) == s
  {
    if s != [] {
      var rest := Split(s[1..], c);
      JoinSplit(s[1..], c);
      if s[0] == c {
        assert ([[]] + rest)[1..] == rest;
      } else if |rest| > 1 {
        assert ([[s[0]] + rest[0]] + rest[1..])[1..] == rest[1..];
        assert s == [s[0]] + s[1..];
      }
    }
  }

  lemma {:induction false} SplitWithPrefix(p: string, rest: string, c: char)
    requires c !in p
    ensures Split(p + rest, c) == [p + Split(rest, c)[0]] + Split(rest, c)[1..]
  {
    if p != [] {
      assert (p + rest)[0] == p[0];
      assert (p + rest)[1..] == p[1..] + rest;
      SplitWithPrefix(p[1..], rest, c);
      assert [p[0]] + (p[1..] + Split(rest, c)[0]) == p + Split(rest, c)[0];
    } else {
      var parts := Split(rest, c);
      assert p + rest == rest;
      assert p + parts[0] == parts[0];
      assert parts == [parts[0]] + parts[1..];
    }
  }

  /** Splitting the join of separator-free pieces gives back the pieces. */
  lemma {:induction false} SplitJoin(parts: seq<string>, c: char)
    requires |parts| >= 1
    requires forall k :: 0 <= k < |parts| ==> c !in parts[k]
    ensures Split(Join(parts, c), c) == parts
  {
    if |parts| == 1 {
      SplitWithPrefix(parts[0], [], c);
      assert parts[0] + [] == parts[0];
    } else {
      var tail := Join(parts[1..], c);
      SplitJoin(parts[1..], c);
      assert parts[0] + [c] + tail == parts[0] + ([c] + tail);
      SplitWithPrefix(parts[0], [c] + tail, c);
      assert ([c] + tail)[1..] == tail;
      assert parts[0] + [] == parts[0];
      assert parts == [parts[0]] + parts[1..];
    }
  }

  /** The join of pieces starts with the first piece and ends with the last one. */
  lemma {:induction false} JoinEnds(parts: seq<string>, c: char)
    requires |parts| >= 1
    ensures StartsWith(Join(parts, c), parts[0])
    ensures var j, l := Join(parts, c), parts[|parts| - 1]; |l| <= |j| && j[|j| - |l|..] == l
  {
    if |parts| > 1 {
      JoinEnds(parts[1..], c);
      var tail := Join(parts[1..], c);
      var l := parts[|parts| - 1];
      assert parts[1..][|parts[1..]| - 1] == l;
      var j := parts[0] + [c] + tail;
      assert j[|j| - |l|..] == tail[|tail| - |l|..];
    }
  }
}
