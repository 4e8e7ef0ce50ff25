/**
 * The JavaScript string operations the relay relies on, over `string` (a sequence of
 * characters): `indexOf`, `split` with a non-empty separator, `replace` with a string
 * pattern, `startsWith`, `trim`, `substring(0, n)` and `Array.prototype.find` over lines.
 */
module Text {
  import opened Wrappers

  /** `pat` occurs in `s` starting at index `i`. */
  predicate OccursAt(s: string, pat: string, i: nat) {
    i + |pat| <= |s| && s[i..i + |pat|] == pat
  }

  predicate Contains(s: string, pat: string) {
    exists i: nat :: i <= |s| && OccursAt(s, pat, i)
  }

  /** The first occurrence of `pat` in `s` at or after `from`. */
  function IndexFrom(s: string, pat: string, from: nat): (r: Option<nat>)
    decreases |s| - from
    ensures r.Some? ==> from <= r.value && OccursAt(s, pat, r.value)
    ensures r.Some? ==> forall j: nat :: from <= j < r.value ==> !OccursAt(s, pat, j)
    ensures r.None? ==> forall j: nat :: from <= j ==> !OccursAt(s, pat, j)
  {
    if from + |pat| > |s| then None
    else if s[from..from + |pat|] == pat then Some(from)
    else IndexFrom(s, pat, from + 1)
  }

  /** `s.indexOf(pat)`, with `None` for JavaScript's -1. */
  function IndexOf(s: string, pat: string): (r: Option<nat>)
    ensures r.Some? ==> OccursAt(s, pat, r.value) && forall j: nat :: j < r.value ==> !OccursAt(s, pat, j)
    ensures r.None? <==> !Contains(s, pat)
  {
    IndexFrom(s, pat, 0)
  }

  /** `s.split(sep)` for a non-empty separator: the pieces between successive
      non-overlapping occurrences of `sep`, scanning from the left. */
  function Split(s: string, sep: string): (parts: seq<string>)
    requires sep != ""
    ensures |parts| >= 1
    decreases |s|
  {
    match IndexOf(s, sep)
    case None => [s]
    case Some(i) => [s[..i]] + Split(s[i + |sep|..], sep)
  }

  /** `parts.join(sep)`. */
  function Join(parts: seq<string>, sep: string): string {
    if |parts| == 0 then ""
    else if |parts| == 1 then parts[0]
    else parts[0] + sep + Join(parts[1..], sep)
  }

  /** Joining the pieces of a split with the same separator gives back the string. */
  lemma {:induction false} SplitThenJoin(s: string, sep: string)
    requires sep != ""
    ensures Join(Split(s, sep), sep) == s
    decreases |s|
  {
    match IndexOf(s, sep)
    case None =>
    case Some(i) =>
      var head, rest := s[..i], s[i + |sep|..];
      var parts, tail := Split(s, sep), Split(rest, sep);
      SplitThenJoin(rest, sep);
      assert Join(parts, sep) == head + sep + rest by {
        assert parts == [head] + tail;
        assert |parts| >= 2 && parts[0] == head && parts[1..] == tail;
      }
      assert head + sep + rest == s by {
        assert s[i..i + |sep|] == sep;
        assert s == head + s[i..i + |sep|] + rest;
      }
  }

  /** No piece of a split contains the separator. */
  lemma {:induction false} SplitPiecesAreFree(s: string, sep: string)
    requires sep != ""
    ensures forall k :: 0 <= k < |Split(s, sep)| ==> !Contains(Split(s, sep)[k], sep)
    decreases |s|
  {
    match IndexOf(s, sep)
    case None =>
    case Some(i) =>
      var head, rest := s[..i], s[i + |sep|..];
      var parts, tail := Split(s, sep), Split(rest, sep);
      SplitPiecesAreFree(rest, sep);
      FreeBeforeFirst(s, sep, i);
      forall k | 0 <= k < |parts| ensures !Contains(parts[k], sep) {
        assert parts == [head] + tail;
        if k > 0 { assert parts[k] == tail[k - 1]; }
      }
  }

  /** The text before the first occurrence of a pattern does not contain it. */
  lemma FreeBeforeFirst(s: string, sep: string, i: nat)
    requires sep != "" && i <= |s|
    requires forall j: nat :: j < i ==> !OccursAt(s, sep, j)
    ensures !Contains(s[..i], sep)
  {
    var head := s[..i];
    forall j: nat | j <= |head| ensures !OccursAt(head, sep, j) {
      if OccursAt(head, sep, j) {
        assert head[j..j + |sep|] == s[j..j + |sep|];
        assert OccursAt(s, sep, j) && j < i;
      }
    }
  }

  /** Splitting `a + sep + b` where no occurrence of `sep` starts inside `a`. */
  lemma SplitAfterPrefix(a: string, sep: string, b: string)
    requires sep != ""
    requires forall j: nat :: j < |a| ==> !OccursAt(a + sep + b, sep, j)
    ensures Split(a + sep + b, sep) == [a] + Split(b, sep)
  {
    var s := a + sep + b;
    assert OccursAt(s, sep, |a|) by { assert s[|a|..|a| + |sep|] == sep; }
    assert IndexOf(s, sep) == Some(|a|);
    assert s[..|a|] == a && s[|a| + |sep|..] == b;
  }

  /** A pattern cannot start where the string does not hold the pattern's first character. */
  lemma NotOccursAtFirst(s: string, pat: string, j: nat)
    requires pat != []
    requires j + |pat| <= |s| ==> s[j] != pat[0]
    ensures !OccursAt(s, pat, j)
  {
    if j + |pat| <= |s| {
      assert s[j..j + |pat|][0] == s[j];
    }
  }

  /** A string with no occurrence of the separator splits into itself. */
  lemma SplitWithout(s: string, sep: string)
    requires sep != "" && !Contains(s, sep)
    ensures Split(s, sep) == [s]
  {
  }

  /** A one-character separator occurs exactly where that character does. */
  lemma OccursAtChar(s: string, c: char, j: nat)
    ensures OccursAt(s, [c], j) <==> j < |s| && s[j] == c
  {
    if j < |s| && s[j] == c {
      assert s[j..j + 1] == [c];
    }
  }

  /** Splitting `a + [c] + b` on the one-character separator `c` when `a` holds no `c`. */
  lemma SplitOnCharAfter(a: string, c: char, b: string)
    requires forall k :: 0 <= k < |a| ==> a[k] != c
    ensures Split(a + [c] + b, [c]) == [a] + Split(b, [c])
  {
    forall j: nat | j < |a| ensures !OccursAt(a + [c] + b, [c], j) {
      OccursAtChar(a + [c] + b, c, j);
    }
    SplitAfterPrefix(a, [c], b);
  }

  /** Fields free of the character `c`, joined by `c`, split on `c` back into those fields. */
  lemma {:induction false} SplitJoinOnChar(fields: seq<string>, c: char)
    requires |fields| >= 1
    requires forall i, k :: 0 <= i < |fields| && 0 <= k < |fields[i]| ==> fields[i][k] != c
    ensures Split(Join(fields, [c]), [c]) == fields
    decreases |fields|
  {
    if |fields| == 1 {
      SplitOnCharWithout(fields[0], c);
    } else {
      SplitJoinOnChar(fields[1..], c);
      SplitOnCharAfter(fields[0], c, Join(fields[1..], [c]));
      assert fields == [fields[0]] + fields[1..];
    }
  }

  /** A string without the character `c` splits on `c` into itself. */
  lemma SplitOnCharWithout(s: string, c: char)
    requires forall k :: 0 <= k < |s| ==> s[k] != c
    ensures Split(s, [c]) == [s]
  {
    forall j: nat ensures !OccursAt(s, [c], j) {
      OccursAtChar(s, c, j);
    }
  }

  /** `arr.filter(Boolean)` over strings: the non-empty pieces, in order. */
  function NonEmpty(parts: seq<string>): (r: seq<string>)
    ensures |r| <= |parts|
    ensures forall k :: 0 <= k < |r| ==> r[k] != "" && r[k] in parts
    ensures forall p :: p in parts && p != "" ==> p in r
  {
    if parts == [] then []
    else if parts[0] == "" then NonEmpty(parts[1..])
    else [parts[0]] + NonEmpty(parts[1..])
  }

  /** `s.replace(pat, rep)` with a string pattern: only the first occurrence is replaced. */
  function ReplaceFirst(s: string, pat: string, rep: string): (r: string)
    ensures !Contains(s, pat) ==> r == s
    ensures Contains(s, pat) ==>
              exists i: nat :: (OccursAt(s, pat, i)
                                && (forall j: nat :: j < i ==> !OccursAt(s, pat, j))
                                && r == s[..i] + rep + s[i + |pat|..])
  {
    match IndexOf(s, pat)
    case None => s
    case Some(i) => s[..i] + rep + s[i + |pat|..]
  }

  /** Replacing a pattern that the string starts with removes exactly that prefix's first copy. */
  lemma ReplaceLeading(pat: string, rest: string, rep: string)
    ensures ReplaceFirst(pat + rest, pat, rep) == rep + rest
  {
    var s := pat + rest;
    assert IndexOf(s, pat) == Some(0) by {
      assert s[0..|pat|] == pat;
      assert OccursAt(s, pat, 0);
    }
    assert s[..0] + rep + s[|pat|..] == rep + rest by {
      assert s[|pat|..] == rest;
    }
  }

  predicate StartsWith(s: string, prefix: string) {
    |prefix| <= |s| && s[..|prefix|] == prefix
  }

  /** `s.substring(0, n)`: at most the first `n` characters. */
  function Prefix(s: string, n: nat): (r: string)
    ensures |r| <= n && |r| <= |s|
    ensures StartsWith(s, r)
    ensures |s| <= n ==> r == s
    ensures n <= |s| ==> |r| == n
  {
    if |s| <= n then s else s[..n]
  }

  /** Index of the first line starting with `prefix`, at or after `from` (`lines.find`). */
  function FindFrom(lines: seq<string>, prefix: string, from: nat): (r: Option<nat>)
    decreases |lines| - from
    ensures r.Some? ==> from <= r.value < |lines| && StartsWith(lines[r.value], prefix)
    ensures r.Some? ==> forall j :: from <= j < r.value ==> !StartsWith(lines[j], prefix)
    ensures r.None? ==> forall j :: from <= j < |lines| ==> !StartsWith(lines[j], prefix)
  {
    if from >= |lines| then None
    else if StartsWith(lines[from], prefix) then Some(from)
    else FindFrom(lines, prefix, from + 1)
  }

  function FindFirst(lines: seq<string>, prefix: string): (r: Option<nat>)
    ensures r.Some? ==> r.value < |lines| && StartsWith(lines[r.value], prefix)
    ensures r.Some? ==> forall j :: 0 <= j < r.value ==> !StartsWith(lines[j], prefix)
    ensures r.None? ==> forall j :: 0 <= j < |lines| ==> !StartsWith(lines[j], prefix)
  {
    FindFrom(lines, prefix, 0)
  }

  /** The characters `String.prototype.trim` removes: ECMAScript WhiteSpace and LineTerminator. */
  predicate IsWhitespace(c: char) {
    c in {'\t', '\n', '\U{B}', '\U{C}', '\r', ' ', '\U{A0}', '\U{1680}',
          '\U{2000}', '\U{2001}', '\U{2002}', '\U{2003}', '\U{2004}', '\U{2005}',
          '\U{2006}', '\U{2007}', '\U{2008}', '\U{2009}', '\U{200A}',
          '\U{2028}', '\U{2029}', '\U{202F}', '\U{205F}', '\U{3000}', '\U{FEFF}'}
  }

  function TrimStart(s: string): (r: string)
    ensures |r| <= |s| && r == s[|s| - |r|..]
    ensures forall k :: 0 <= k < |s| - |r| ==> IsWhitespace(s[k])
    ensures r == [] || !IsWhitespace(r[0])
  {
    if s != [] && IsWhitespace(s[0]) then TrimStart(s[1..]) else s
  }

  function TrimEnd(s: string): (r: string)
    ensures |r| <= |s| && r == s[..|r|]
    ensures forall k :: |r| <= k < |s| ==> IsWhitespace(s[k])
    ensures r == [] || !IsWhitespace(r[|r| - 1])
  {
    if s != [] && IsWhitespace(s[|s| - 1]) then TrimEnd(s[..|s| - 1]) else s
  }

  /** `s.trim()`: `s` without its leading and trailing whitespace. */
  function Trim(s: string): (r: string)
    ensures r == [] || (!IsWhitespace(r[0]) && !IsWhitespace(r[|r| - 1]))
    ensures |r| <= |s|
  {
    TrimEnd(TrimStart(s))
  }

  /** What `trim` keeps is a contiguous piece of `s`, with only whitespace before and after it. */
  lemma TrimIsInfix(s: string)
    ensures var a := |s| - |TrimStart(s)|;
            var r := Trim(s);
            && a + |r| <= |s| && r == s[a..a + |r|]
            && (forall k :: 0 <= k < a ==> IsWhitespace(s[k]))
            && (forall k :: a + |r| <= k < |s| ==> IsWhitespace(s[k]))
  {
    var t := TrimStart(s);
    var r := TrimEnd(t);
    var a := |s| - |t|;
    assert t == s[a..];
    assert r == t[..|r|];
    forall k | a + |r| <= k < |s| ensures IsWhitespace(s[k]) {
      assert s[k] == t[k - a];
    }
  }

  /** A string with no whitespace at either end is left alone by `trim`. */
  lemma TrimUntouched(s: string)
    requires s == [] || (!IsWhitespace(s[0]) && !IsWhitespace(s[|s| - 1]))
    ensures Trim(s) == s
  {
  }
}
