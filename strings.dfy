/** String helpers shared by the models: substring search, Python's
    `str.split` with a one-character separator and its inverse `join`, and
    the character classes the source's regular expressions use. */
module Strings {

  import opened Wrappers

  /** The ASCII digits `\d` stands for in the model (see README). */
  predicate IsDigit(c: char) { '0' <= c <= '9' }

  /** A character of the class `[\d.]`. */
  predicate IsRunChar(c: char) { IsDigit(c) || c == '.' }

  predicate OccursAt(s: string, p: string, i: nat) {
    i + |p| <= |s| && s[i..i + |p|] == p
  }

  /** The first index at or after `from` where `p` occurs in `s`. */
  function IndexFrom(s: string, p: string, from: nat): (r: Option<nat>)
    decreases |s| - from
    ensures r.Some? ==> from <= r.value && OccursAt(s, p, r.value)
    ensures r.Some? ==> forall j :: from <= j < r.value ==> !OccursAt(s, p, j)
    ensures r.None? ==> forall j :: from <= j ==> !OccursAt(s, p, j)
  {
    if from + |p| > |s| then None
    else if s[from..from + |p|] == p then Some(from)
    else IndexFrom(s, p, from + 1)
  }

  /** Python's `p in s`. */
  predicate Contains(s: string, p: string) {
    IndexFrom(s, p, 0).Some?
  }

  lemma ContainsIff(s: string, p: string)
    ensures Contains(s, p) <==> exists i :: OccursAt(s, p, i)
  {
    if Contains(s, p) {
      assert OccursAt(s, p, IndexFrom(s, p, 0).value);
    }
  }

  lemma ContainsConcat(a: string, p: string, b: string)
    ensures Contains(a + p + b, p)
  {
    assert (a + p + b)[|a|..|a| + |p|] == p;
    assert OccursAt(a + p + b, p, |a|);
  }

  predicate StartsWith(s: string, p: string) {
    |p| <= |s| && s[..|p|] == p
  }

  /** The index of the first `c` in `s`, if any. */
  function FirstIndexOf(s: string, c: char): (r: Option<nat>)
    ensures r.Some? ==> r.value < |s| && s[r.value] == c && c !in s[..r.value]
    ensures r.None? <==> c !in s
  {
    if |s| == 0 then None
    else if s[0] == c then Some(0)
    else
      var t := FirstIndexOf(s[1..], c);
      assert s == [s[0]] + s[1..];
      if t.Some? then
        assert s[..t.value + 1] == [s[0]] + s[1..][..t.value];
        Some(t.value + 1)
      else None
  }

  /** Python's `s.split(c)` for a one-character separator. */
  function Split(s: string, c: char): (parts: seq<string>)
    decreases |s|
    ensures |parts| >= 1
    ensures forall k :: 0 <= k < |parts| ==> c !in parts[k]
  {
    match FirstIndexOf(s, c)
    case None => [s]
    case Some(i) => [s[..i]] + Split(s[i + 1..], c)
  }

  /** Python's `c.join(parts)`. */
  function Join(parts: seq<string>, c: char): string
  {
    if |parts| == 0 then ""
    else if |parts| == 1 then parts[0]
    else parts[0] + [c] + Join(parts[1..], c)
  }

  /** Splitting and joining again gives back the original string. */
  lemma {:induction false} JoinSplit(s: string, c: char)
    decreases |s|
    ensures Join(Split(s, c), c) == s
  {
    match FirstIndexOf(s, c)
    case None =>
    case Some(i) =>
      var rest := Split(s[i + 1..], c);
      JoinSplit(s[i + 1..], c);
      assert Split(s, c) == [s[..i]] + rest;
      assert s == s[..i] + [c] + s[i + 1..];
  }

  /** Splitting a join of separator-free parts gives back the parts. */
  lemma {:induction false} SplitJoin(parts: seq<string>, c: char)
    requires |parts| >= 1
    requires forall k :: 0 <= k < |parts| ==> c !in parts[k]
    ensures Split(Join(parts, c), c) == parts
  {
    if |parts| == 1 {
      assert FirstIndexOf(parts[0], c).None?;
    } else {
      forall k | 0 <= k < |parts| - 1 ensures c !in parts[1..][k] {
        assert parts[1..][k] == parts[k + 1];
      }
      SplitJoin(parts[1..], c);
      SplitJoinStep(parts, c);
    }
  }

  lemma SplitJoinStep(parts: seq<string>, c: char)
    requires |parts| >= 2 && c !in parts[0]
    requires Split(Join(parts[1..], c), c) == parts[1..]
    ensures Split(Join(parts, c), c) == parts
  {
    var tail := Join(parts[1..], c);
    assert Join(parts, c) == parts[0] + [c] + tail;
    SplitAfterFree(parts[0], c, tail);
    assert parts == [parts[0]] + parts[1..];
  }

  /** Splitting at a first separator peels off the text before it. */
  lemma SplitAfterFree(a: string, c: char, b: string)
    requires c !in a
    ensures Split(a + [c] + b, c) == [a] + Split(b, c)
  {
    FirstAfterFree(a, c, b);
    assert (a + [c] + b)[..|a|] == a;
    assert (a + [c] + b)[|a| + 1..] == b;
  }

  /** Splitting three separator-free fields off the front of a string. */
  lemma SplitThree(a: string, b: string, c: string, sep: char, rest: string)
    requires sep !in a && sep !in b && sep !in c
    ensures Split(a + [sep] + (b + [sep] + (c + [sep] + rest)), sep) == [a, b, c] + Split(rest, sep)
  {
    var r2 := c + [sep] + rest;
    var r1 := b + [sep] + r2;
    SplitAfterFree(c, sep, rest);
    SplitAfterFree(b, sep, r2);
    SplitAfterFree(a, sep, r1);
    PrependThree(a, b, c, Split(rest, sep));
  }

  lemma PrependThree<T>(a: T, b: T, c: T, x: seq<T>)
    ensures [a] + ([b] + ([c] + x)) == [a, b, c] + x
  {
  }

  /** Text found in a prefix is found in the whole. */
  lemma ContainsExtend(a: string, p: string, b: string)
    requires Contains(a, p)
    ensures Contains(a + b, p)
  {
    var k := IndexFrom(a, p, 0).value;
    assert (a + b)[k..k + |p|] == a[k..k + |p|];
    assert OccursAt(a + b, p, k);
    ContainsIff(a + b, p);
  }

  lemma FirstAfterFree(a: string, c: char, b: string)
    requires c !in a
    ensures FirstIndexOf(a + [c] + b, c) == Some(|a|)
  {
    var s := a + [c] + b;
    assert s[..|a|] == a;
    FirstIndexOfAt(s, c, |a|);
  }

  /** The first `c` is at `i` when `s[i]` is `c` and no `c` precedes it. */
  lemma {:induction false} FirstIndexOfAt(s: string, c: char, i: nat)
    requires i < |s| && s[i] == c && c !in s[..i]
    ensures FirstIndexOf(s, c) == Some(i)
  {
    if i > 0 {
      assert s[0] == s[..i][0];
      assert s[1..][..i - 1] == s[..i][1..];
      FirstIndexOfAt(s[1..], c, i - 1);
    }
  }

  /** The text after the last `/`, as `os.path.basename` on a POSIX path:
      the longest suffix without a `/`. */
  function Basename(path: string): (r: string)
    decreases |path|
    ensures '/' !in r
    ensures EndsWith(path, r)
    ensures |r| < |path| ==> path[|path| - |r| - 1] == '/'
  {
    if |path| == 0 || path[|path| - 1] == '/' then ""
    else
      var init := path[..|path| - 1];
      var r := Basename(init) + [path[|path| - 1]];
      assert path == init + [path[|path| - 1]];
      r
  }

  predicate EndsWith(s: string, p: string) {
    |p| <= |s| && s[|s| - |p|..] == p
  }

  /** The characters Python's `str.isspace()` accepts, which `str.strip()`
      removes: tab through carriage return, the file, group, record and unit
      separators, space, next-line, no-break space, and the Unicode space and
      line/paragraph separators. */
  predicate IsSpace(c: char) {
    ('\t' <= c <= '\r') || ('\U{1c}' <= c <= ' ') || c == '\U{85}' || c == '\U{a0}'
    || c == '\U{1680}' || ('\U{2000}' <= c <= '\U{200a}') || c == '\U{2028}' || c == '\U{2029}'
    || c == '\U{202f}' || c == '\U{205f}' || c == '\U{3000}'
  }

  predicate IsDoubleQuote(c: char) { c == '"' }

  /** `s` without its leading characters satisfying `drop`. */
  function DropLeading(s: string, drop: char -> bool): (r: string)
    ensures |r| <= |s| && r == s[|s| - |r|..]
    ensures forall j :: 0 <= j < |s| - |r| ==> drop(s[j])
    ensures |r| > 0 ==> !drop(r[0])
  {
    if |s| > 0 && drop(s[0]) then DropLeading(s[1..], drop) else s
  }

  /** `s` without its trailing characters satisfying `drop`. */
  function DropTrailing(s: string, drop: char -> bool): (r: string)
    ensures |r| <= |s| && r == s[..|r|]
    ensures forall j :: |r| <= j < |s| ==> drop(s[j])
    ensures |r| > 0 ==> !drop(r[|r| - 1])
  {
    if |s| > 0 && drop(s[|s| - 1]) then DropTrailing(s[..|s| - 1], drop) else s
  }

  /** Python's `s.strip(chars)`: both ends trimmed of the characters `drop`
      accepts. */
  function StripBy(s: string, drop: char -> bool): string {
    DropTrailing(DropLeading(s, drop), drop)
  }

  /** Stripping leaves a slice of `s`, and removes only characters `drop`
      accepts. */
  lemma StripBySlice(s: string, drop: char -> bool)
    ensures var i, r := |s| - |DropLeading(s, drop)|, StripBy(s, drop);
      OccursAt(s, r, i)
      && (forall j :: 0 <= j < i ==> drop(s[j]))
      && (forall j :: i + |r| <= j < |s| ==> drop(s[j]))
  {
    var l := DropLeading(s, drop);
    PrefixOfTail(s, l, DropTrailing(l, drop), drop);
  }

  /** A non-empty stripped text starts and ends with kept characters. */
  lemma StripByEnds(s: string, drop: char -> bool)
    ensures var r := StripBy(s, drop);
      |r| > 0 ==> !drop(r[0]) && !drop(r[|r| - 1])
  {
    var l := DropLeading(s, drop);
    var r := DropTrailing(l, drop);
    if |r| > 0 {
      assert r[0] == l[0];
    }
  }

  /** A prefix `p` of a suffix `l` of `s`, where the rest of `l` is
      dropped, is a slice of `s` followed only by dropped characters. */
  lemma PrefixOfTail(s: string, l: string, p: string, drop: char -> bool)
    requires |l| <= |s| && l == s[|s| - |l|..]
    requires |p| <= |l| && p == l[..|p|]
    requires forall j :: |p| <= j < |l| ==> drop(l[j])
    ensures OccursAt(s, p, |s| - |l|)
    ensures forall j :: |s| - |l| + |p| <= j < |s| ==> drop(s[j])
  {
    var n := |s| - |l|;
    assert s[n..n + |p|] == p;
    forall j | n + |p| <= j < |s| ensures drop(s[j]) {
      assert s[j] == l[j - n];
    }
  }

  /** Python's `s.replace(p, q)`: every non-overlapping occurrence of `p`,
      from the left, replaced by `q`. */
  function ReplaceAll(s: string, p: string, q: string): (r: string)
    requires |p| > 0
    decreases |s|
    ensures !Contains(s, p) ==> r == s
  {
    match IndexFrom(s, p, 0)
    case None => s
    case Some(i) => s[..i] + q + ReplaceAll(s[i + |p|..], p, q)
  }

  /** A string holding exactly one occurrence of `p` gets exactly that one
      replaced, in place. */
  lemma ReplaceSingle(a: string, p: string, b: string, q: string)
    requires |p| > 0
    requires forall j: nat :: j != |a| ==> !OccursAt(a + p + b, p, j)
    ensures ReplaceAll(a + p + b, p, q) == a + q + b
  {
    var s := a + p + b;
    assert s[|a|..|a| + |p|] == p;
    assert OccursAt(s, p, |a|);
    assert IndexFrom(s, p, 0) == Some(|a|);
    assert s[|a| + |p|..] == b;
    NoOccurrenceAfter(a, p, b);
    assert s[..|a|] == a;
  }

  /** In a string holding exactly one occurrence of `sep`, the second part
      of the split is everything after it. */
  lemma SecondPartSingle(a: string, sep: string, b: string)
    requires |sep| > 0
    requires forall j: nat :: j != |a| ==> !OccursAt(a + sep + b, sep, j)
    ensures SecondPart(a + sep + b, sep) == Some(b)
  {
    var s := a + sep + b;
    assert s[|a|..|a| + |sep|] == sep;
    assert OccursAt(s, sep, |a|);
    assert IndexFrom(s, sep, 0) == Some(|a|);
    assert s[|a| + |sep|..] == b;
    NoOccurrenceAfter(a, sep, b);
  }

  lemma NoOccurrenceAfter(a: string, p: string, b: string)
    requires forall j: nat :: j != |a| ==> !OccursAt(a + p + b, p, j)
    requires |p| > 0
    ensures !Contains(b, p)
  {
    var s := a + p + b;
    if Contains(b, p) {
      var j := IndexFrom(b, p, 0).value;
      assert s[|a| + |p| + j..|a| + |p| + j + |p|] == b[j..j + |p|];
      assert OccursAt(s, p, |a| + |p| + j);
    }
  }

  /** Python's `s.split(sep)[1]`: the text between the first and the second
      occurrence of `sep` (or the end); `None` where Python raises
      `IndexError` because `sep` does not occur. */
  function SecondPart(s: string, sep: string): (r: Option<string>)
    requires |sep| > 0
    ensures r.Some? <==> Contains(s, sep)
    ensures r.Some? ==> !Contains(r.value, sep)
  {
    match IndexFrom(s, sep, 0)
    case None => None
    case Some(i) =>
      var rest := s[i + |sep|..];
      match IndexFrom(rest, sep, 0)
      case None => Some(rest)
      case Some(j) =>
        assert forall m: nat :: !OccursAt(rest[..j], sep, m) by {
          forall m: nat ensures !OccursAt(rest[..j], sep, m) {
            if OccursAt(rest[..j], sep, m) {
              assert rest[..j][m..m + |sep|] == rest[m..m + |sep|];
              assert OccursAt(rest, sep, m);
            }
          }
        }
        Some(rest[..j])
  }
}
