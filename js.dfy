/**
 * The JavaScript built-ins the core relies on, stated on `seq<char>`:
 * `String.prototype.trim`, `split` with a one-character separator,
 * `startsWith`/`endsWith`, and `slice` with JavaScript's negative-index
 * and clamping rules (shared by strings and arrays).
 */
module Js {

  /** WhiteSpace and LineTerminator code points, the ones `trim` removes. */
  predicate IsWhitespace(c: char)
  {
    c == '\t' || c == '\n' || c == '\U{000B}' || c == '\U{000C}' || c == '\r' ||
    c == ' ' || c == '\U{00A0}' || c == '\U{1680}' ||
    ('\U{2000}' <= c <= '\U{200A}') ||
    c == '\U{2028}' || c == '\U{2029}' || c == '\U{202F}' || c == '\U{205F}' ||
    c == '\U{3000}' || c == '\U{FEFF}'
  }

  predicate AllWhitespace(s: string)
  {
    forall k :: 0 <= k < |s| ==> IsWhitespace(s[k])
  }

  /** `s[lo..hi]` holds only whitespace. */
  predicate WhitespaceBetween(s: string, lo: nat, hi: nat)
    requires lo <= hi <= |s|
  {
    forall k :: lo <= k < hi ==> IsWhitespace(s[k])
  }

  /** Drops the leading whitespace: what is left is a suffix of `s` that is
      empty or starts with a non-whitespace character. */
  function TrimStart(s: string): (r: string)
    ensures |r| <= |s| && r == s[|s| - |r|..]
    ensures WhitespaceBetween(s, 0, |s| - |r|)
    ensures r != [] ==> !IsWhitespace(r[0])
  {
    if s == [] || !IsWhitespace(s[0]) then s
    else TrimStart(s[1..])
  }

  /** Drops the trailing whitespace: what is left is a prefix of `s` that is
      empty or ends with a non-whitespace character. */
  function TrimEnd(s: string): (r: string)
    ensures |r| <= |s| && r == s[..|r|]
    ensures WhitespaceBetween(s, |r|, |s|)
    ensures r != [] ==> !IsWhitespace(r[|r| - 1])
  {
    if s == [] || !IsWhitespace(s[|s| - 1]) then s
    else TrimEnd(s[..|s| - 1])
  }

  /** `s.trim()` */
  function Trim(s: string): (r: string)
    ensures |r| <= |s|
    ensures r != [] ==> !IsWhitespace(r[0]) && !IsWhitespace(r[|r| - 1])
  {
    TrimEnd(TrimStart(s))
  }

  /** What `trim` keeps is the infix `s[i..j]` left once whitespace is cut
      from both ends. */
  lemma TrimIsInfix(s: string)
    ensures exists i, j :: 0 <= i <= j <= |s| && Trim(s) == s[i..j]
                           && WhitespaceBetween(s, 0, i) && WhitespaceBetween(s, j, |s|)
  {
    var t := TrimStart(s);
    var r := TrimEnd(t);
    var i := |s| - |t|;
    assert forall k :: i + |r| <= k < |s| ==> s[k] == t[k - i];
    assert r == s[i..i + |r|];
  }

  /** `s.trim()` is the empty (falsy) string exactly when `s` is all whitespace. */
  lemma {:induction false} TrimEmptyIff(s: string)
    ensures Trim(s) == [] <==> AllWhitespace(s)
  {
    var t := TrimStart(s);
    if AllWhitespace(s) {
      assert t == [];
    }
    if Trim(s) == [] {
      assert t == [];
    }
  }

  predicate StartsWith(s: string, prefix: string)
  {
    |prefix| <= |s| && s[..|prefix|] == prefix
  }

  predicate EndsWith(s: string, suffix: string)
  {
    |suffix| <= |s| && s[|s| - |suffix|..] == suffix
  }

  /** Resolves a relative index the way `slice` does: negative counts from
      the end, and the result is clamped into `0..n`. */
  function ClampIndex(i: int, n: nat): (k: nat)
    ensures k <= n
  {
    if i < 0 then (if n + i < 0 then 0 else n + i)
    else if i > n then n
    else i
  }

  /** `s.slice(start, end)`. */
  function Slice<T>(s: seq<T>, start: int, end: int): seq<T>
  {
    var from, to := ClampIndex(start, |s|), ClampIndex(end, |s|);
    if from < to then s[from..to] else []
  }

  /** `s.slice(k, -k)` drops `k` elements from each end, and is empty when
      fewer than `2 * k + 1` elements are present. */
  lemma SliceDropsEnds<T>(s: seq<T>, k: nat)
    requires k > 0
    ensures Slice(s, k, -(k as int)) == if |s| > 2 * k then s[k..|s| - k] else []
  {
  }

  /** `s.slice(0, n)` is the prefix of length `min(n, |s|)`. */
  lemma SlicePrefix<T>(s: seq<T>, n: nat)
    ensures Slice(s, 0, n) == if n <= |s| then s[..n] else s
  {
  }

  function Count(s: string, c: char): nat
  {
    if s == [] then 0 else (if s[0] == c then 1 else 0) + Count(s[1..], c)
  }

  /** `s.split(sep)` for a one-character separator: one segment more than
      there are separators, and no segment holds the separator. */
  function Split(s: string, sep: char): (r: seq<string>)
    ensures |r| == Count(s, sep) + 1
    ensures forall k :: 0 <= k < |r| ==> sep !in r[k]
  {
    if s == [] then [[]]
    else
      var rest := Split(s[1..], sep);
      if s[0] == sep then [[]] + rest
      else [[s[0]] + rest[0]] + rest[1..]
  }

  /** `parts.join(sep)`. */
  function Join(parts: seq<string>, sep: char): string
  {
    if parts == [] then []
    else if |parts| == 1 then parts[0]
    else parts[0] + [sep] + Join(parts[1..], sep)
  }

  /** Joining the segments back with the separator gives the original text. */
  lemma {:induction false} JoinSplit(s: string, sep: char)
    ensures Join(Split(s, sep), sep) == s
  {
    if s != [] {
      JoinSplit(s[1..], sep);
      var rest := Split(s[1..], sep);
      if s[0] == sep {
        assert [s[0]] + s[1..] == s;
      } else if |rest| == 1 {
        assert [s[0]] + s[1..] == s;
      } else {
        assert Join(rest, sep) == rest[0] + [sep] + Join(rest[1..], sep);
        assert s == [s[0]] + s[1..];
      }
    }
  }

  /** A separator-free prefix stays glued to the first segment. */
  lemma {:induction false} SplitSeparatorFree(p: string, t: string, sep: char)
    requires sep !in p
    ensures Split(p + t, sep) == [p + Split(t, sep)[0]] + Split(t, sep)[1..]
  {
    if p != [] {
      SplitSeparatorFree(p[1..], t, sep);
      assert (p + t)[1..] == p[1..] + t;
      assert [p[0]] + (p[1..] + Split(t, sep)[0]) == p + Split(t, sep)[0];
    } else {
      assert p + t == t;
      assert p + Split(t, sep)[0] == Split(t, sep)[0];
      assert Split(t, sep) == [Split(t, sep)[0]] + Split(t, sep)[1..];
    }
  }

  /** Splitting separator-free segments joined by the separator gives the
      segments back. */
  lemma {:induction false} SplitJoin(parts: seq<string>, sep: char)
    requires |parts| >= 1
    requires forall k :: 0 <= k < |parts| ==> sep !in parts[k]
    ensures Split(Join(parts, sep), sep) == parts
  {
    if |parts| == 1 {
      SplitSeparatorFree(parts[0], [], sep);
      assert parts[0] + [] == parts[0];
    } else {
      var tail := Join(parts[1..], sep);
      SplitJoin(parts[1..], sep);
      assert parts[0] + [sep] + tail == parts[0] + ([sep] + tail);
      SplitSeparatorFree(parts[0], [sep] + tail, sep);
      assert ([sep] + tail)[1..] == tail;
      assert Split([sep] + tail, sep) == [[]] + Split(tail, sep);
      assert parts[0] + [] == parts[0];
      assert parts == [parts[0]] + parts[1..];
    }
  }
}
