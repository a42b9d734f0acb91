/** Python's `list.sort(key=..., reverse=...)` as a pure function of the list:
    a STABLE sort, so elements with equal keys keep their relative order, with
    `reverse=True` included (Python sorts descending without reversing ties).
    The source only calls the library sort, so its result is all the model
    needs; it is defined here as an insertion sort and characterised by three
    lemmas: the result is ordered, a permutation, and stable. */
module Sorting {

  /** `a` may stand before `b`: keys non-increasing when `desc`, else non-decreasing. */
  predicate InOrder<T>(key: T -> real, desc: bool, a: T, b: T) {
    if desc then key(a) >= key(b) else key(a) <= key(b)
  }

  predicate Ordered<T>(s: seq<T>, key: T -> real, desc: bool) {
    forall i, j :: 0 <= i < j < |s| ==> InOrder(key, desc, s[i], s[j])
  }

  /** Places `x` before the first element it may precede. */
  function Insert<T>(x: T, t: seq<T>, key: T -> real, desc: bool): (r: seq<T>)
    ensures |r| == |t| + 1
  {
    if |t| == 0 || InOrder(key, desc, x, t[0]) then [x] + t
    else [t[0]] + Insert(x, t[1..], key, desc)
  }

  /** The stable sort of `s` by `key`, descending when `desc`. */
  function SortBy<T>(s: seq<T>, key: T -> real, desc: bool): (r: seq<T>)
    ensures |r| == |s|
    ensures multiset(r) == multiset(s)
    ensures Ordered(r, key, desc)
  {
    if |s| == 0 then []
    else
      var t := SortBy(s[1..], key, desc);
      InsertPermutes(s[0], t, key, desc);
      InsertOrdered(s[0], t, key, desc);
      assert s == [s[0]] + s[1..];
      Insert(s[0], t, key, desc)
  }

  /** The elements of `s` whose key is `v`, in their order in `s`. */
  function KeyClass<T>(s: seq<T>, key: T -> real, v: real): seq<T>
  {
    if |s| == 0 then []
    else (if key(s[0]) == v then [s[0]] else []) + KeyClass(s[1..], key, v)
  }

  lemma {:induction false} InsertPermutes<T>(x: T, t: seq<T>, key: T -> real, desc: bool)
    ensures |Insert(x, t, key, desc)| == |t| + 1
    ensures multiset(Insert(x, t, key, desc)) == multiset([x] + t)
  {
    if |t| > 0 && !InOrder(key, desc, x, t[0]) {
      InsertPermutes(x, t[1..], key, desc);
      assert t == [t[0]] + t[1..];
    }
  }

  lemma {:induction false} InsertMembers<T>(x: T, t: seq<T>, key: T -> real, desc: bool)
    ensures forall y :: y in Insert(x, t, key, desc) ==> y == x || y in t
  {
    if |t| > 0 && !InOrder(key, desc, x, t[0]) {
      InsertMembers(x, t[1..], key, desc);
      assert t == [t[0]] + t[1..];
    }
  }

  lemma {:induction false} InsertOrdered<T>(x: T, t: seq<T>, key: T -> real, desc: bool)
    requires Ordered(t, key, desc)
    ensures Ordered(Insert(x, t, key, desc), key, desc)
  {
    if |t| == 0 || InOrder(key, desc, x, t[0]) {
      forall y | y in t ensures InOrder(key, desc, x, y) {
        var m :| 0 <= m < |t| && t[m] == y;
        if m > 0 { assert InOrder(key, desc, t[0], t[m]); }
      }
      OrderedCons(x, t, key, desc);
    } else {
      var u := Insert(x, t[1..], key, desc);
      InsertOrdered(x, t[1..], key, desc);
      InsertMembers(x, t[1..], key, desc);
      forall y | y in u ensures InOrder(key, desc, t[0], y) {
        if y != x {
          var m :| 0 <= m < |t[1..]| && t[1..][m] == y;
          assert t[m + 1] == y;
        }
      }
      OrderedCons(t[0], u, key, desc);
    }
  }

  /** Prepending an element that may precede every element keeps order. */
  lemma OrderedCons<T>(x: T, t: seq<T>, key: T -> real, desc: bool)
    requires Ordered(t, key, desc)
    requires forall y :: y in t ==> InOrder(key, desc, x, y)
    ensures Ordered([x] + t, key, desc)
  {
    var r := [x] + t;
    forall i, j | 0 <= i < j < |r| ensures InOrder(key, desc, r[i], r[j]) {
      assert r[j] == t[j - 1];
      if i > 0 { assert r[i] == t[i - 1]; } else { assert r[j] in t; }
    }
  }

  lemma {:induction false} InsertKeyClass<T>(x: T, t: seq<T>, key: T -> real, desc: bool, v: real)
    ensures KeyClass(Insert(x, t, key, desc), key, v) == (if key(x) == v then [x] else []) + KeyClass(t, key, v)
  {
    if |t| == 0 || InOrder(key, desc, x, t[0]) {
      assert ([x] + t)[1..] == t;
    } else {
      var r := Insert(x, t, key, desc);
      InsertKeyClass(x, t[1..], key, desc, v);
      assert r[0] == t[0] && r[1..] == Insert(x, t[1..], key, desc);
      assert KeyClass(r, key, v) == (if key(t[0]) == v then [t[0]] else []) + KeyClass(r[1..], key, v);
      assert KeyClass(t, key, v) == (if key(t[0]) == v then [t[0]] else []) + KeyClass(t[1..], key, v);
      assert key(t[0]) != key(x);
    }
  }

  /** The elements with key `v` sit at strictly increasing positions of
      the sequence. */
  lemma {:induction false} KeyClassPositions<T>(s: seq<T>, key: T -> real, v: real) returns (idx: seq<nat>)
    ensures |idx| == |KeyClass(s, key, v)|
    ensures forall k :: 0 <= k < |idx| ==> idx[k] < |s| && s[idx[k]] == KeyClass(s, key, v)[k]
    ensures forall k, l :: 0 <= k < l < |idx| ==> idx[k] < idx[l]
  {
    if |s| == 0 {
      idx := [];
    } else {
      var rest := KeyClassPositions(s[1..], key, v);
      var shifted := Shift(rest);
      var head: seq<nat> := if key(s[0]) == v then [0] else [];
      idx := head + shifted;
      assert KeyClass(s, key, v) == (if key(s[0]) == v then [s[0]] else []) + KeyClass(s[1..], key, v);
      forall k | 0 <= k < |shifted| ensures s[shifted[k]] == s[1..][rest[k]] {
      }
    }
  }

  /** Every position moved one step right. */
  function Shift(p: seq<nat>): (r: seq<nat>)
    ensures |r| == |p| && forall k :: 0 <= k < |p| ==> r[k] == p[k] + 1
  {
    seq(|p|, k requires 0 <= k < |p| => p[k] + 1)
  }

  /** Two sequences related position by position by `same`, with equal keys
      at each position, have key classes related the same way. */
  lemma {:induction false} KeyClassAlong<T>(s: seq<T>, t: seq<T>, key: T -> real, v: real, same: (T, T) -> bool)
    requires |s| == |t|
    requires forall i :: 0 <= i < |s| ==> key(t[i]) == key(s[i]) && same(t[i], s[i])
    ensures |KeyClass(t, key, v)| == |KeyClass(s, key, v)|
    ensures forall k :: 0 <= k < |KeyClass(s, key, v)| ==> same(KeyClass(t, key, v)[k], KeyClass(s, key, v)[k])
  {
    if |s| > 0 {
      KeyClassAlong(s[1..], t[1..], key, v, same);
    }
  }

  /** The sort is stable: the elements sharing any one key come out in the
      order they went in. */
  lemma {:induction false} SortByStable<T>(s: seq<T>, key: T -> real, desc: bool, v: real)
    ensures KeyClass(SortBy(s, key, desc), key, v) == KeyClass(s, key, v)
  {
    if |s| > 0 {
      SortByStable(s[1..], key, desc, v);
      InsertKeyClass(s[0], SortBy(s[1..], key, desc), key, desc, v);
    }
  }

  /** In a sequence ordered by `key`, an element whose key comes strictly
      first sits at an earlier position. */
  lemma OrderedBefore<T>(s: seq<T>, key: T -> real, desc: bool, i: nat, j: nat)
    requires Ordered(s, key, desc)
    requires i < |s| && j < |s|
    requires if desc then key(s[i]) > key(s[j]) else key(s[i]) < key(s[j])
    ensures i < j
  {
  }

  /** `[f(x) for x in s]`. */
  function Map<A, B>(f: A -> B, s: seq<A>): (r: seq<B>)
    ensures |r| == |s|
    ensures forall i :: 0 <= i < |s| ==> r[i] == f(s[i])
  {
    seq(|s|, i requires 0 <= i < |s| => f(s[i]))
  }

  /** Removing the element at `k` removes one copy of it from the multiset. */
  lemma RemoveAt<T>(b: seq<T>, k: nat)
    requires k < |b|
    ensures multiset(b[..k] + b[k + 1..]) == multiset(b) - multiset{b[k]}
  {
    assert b == b[..k] + [b[k]] + b[k + 1..];
  }

  lemma MapRemoveAt<A, B>(f: A -> B, b: seq<A>, k: nat)
    requires k < |b|
    ensures multiset(Map(f, b)) == multiset(Map(f, b[..k] + b[k + 1..])) + multiset{f(b[k])}
  {
    var m := Map(f, b);
    assert Map(f, b[..k] + b[k + 1..]) == m[..k] + m[k + 1..];
    RemoveAt(m, k);
  }

  /** Projecting two permutations of each other gives permutations of each other. */
  lemma {:induction false} MapPermutes<A, B>(f: A -> B, a: seq<A>, b: seq<A>)
    requires multiset(a) == multiset(b)
    decreases |a|
    ensures multiset(Map(f, a)) == multiset(Map(f, b))
  {
    if |a| == 0 {
      assert |b| == |multiset(b)| == 0;
    } else {
      var x := a[0];
      assert x in multiset(b);
      var k :| 0 <= k < |b| && b[k] == x;
      PermutesRest(a, b, k);
      MapPermutes(f, a[1..], b[..k] + b[k + 1..]);
      MapPermutesStep(f, a, b, k);
    }
  }

  /** Taking the head of `a` and its match `b[k]` out of two permutations
      of each other leaves permutations of each other. */
  lemma PermutesRest<T>(a: seq<T>, b: seq<T>, k: nat)
    requires multiset(a) == multiset(b) && |a| > 0 && k < |b| && b[k] == a[0]
    ensures multiset(a[1..]) == multiset(b[..k] + b[k + 1..])
  {
    RemoveAt(b, k);
    assert a == [a[0]] + a[1..];
  }

  /** Matching the head of `a` with `b[k]` reduces the claim to the rests. */
  lemma MapPermutesStep<A, B>(f: A -> B, a: seq<A>, b: seq<A>, k: nat)
    requires |a| > 0 && k < |b| && b[k] == a[0]
    requires multiset(Map(f, a[1..])) == multiset(Map(f, b[..k] + b[k + 1..]))
    ensures multiset(Map(f, a)) == multiset(Map(f, b))
  {
    MapCons(f, a);
    MapRemoveAt(f, b, k);
  }

  lemma MapCons<A, B>(f: A -> B, a: seq<A>)
    requires |a| > 0
    ensures Map(f, a) == [f(a[0])] + Map(f, a[1..])
  {
  }

  /** Python's `s[:k]`: the first `k` elements, or all but the last `-k`
      when `k` is negative, clamped to the list. */
  function Take<T>(s: seq<T>, k: int): (r: seq<T>)
    ensures |r| <= |s| && r == s[..|r|]
    ensures k >= 0 ==> |r| == if k < |s| then k else |s|
    ensures k < 0 ==> |r| == if -k < |s| then |s| + k else 0
  {
    if k >= 0 then (if k < |s| then s[..k] else s)
    else (if -k < |s| then s[..|s| + k] else [])
  }
}
