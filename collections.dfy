/**
 * The document-store queries the controllers use, over a collection kept as a sequence in
 * natural (insertion) order: `findOne`/`findById` return the first match, `find` returns
 * every match in order, and `deleteOne` removes the first match.
 */
module Collections {
  import opened Wrappers

  /** The position of the first element satisfying `p`. */
  function FindIndex<T>(s: seq<T>, p: T -> bool): (r: Option<nat>)
    ensures r.Some? ==> r.value < |s| && p(s[r.value]) && forall j :: 0 <= j < r.value ==> !p(s[j])
    ensures r.None? <==> forall i :: 0 <= i < |s| ==> !p(s[i])
  {
    if |s| == 0 then None
    else if p(s[0]) then Some(0)
    else
      match FindIndex(s[1..], p)
      case None => None
      case Some(k) => Some(k + 1)
  }

  /**
   * The elements satisfying `p`: each such element as many times as in `s`, no other element;
   * FilterAppend gives their order.
   */
  function Filter<T(!new)>(s: seq<T>, p: T -> bool): (r: seq<T>)
    ensures |r| <= |s|
    ensures forall x :: x in r <==> x in s && p(x)
    ensures forall x :: multiset(r)[x] == if p(x) then multiset(s)[x] else 0
  {
    if |s| == 0 then []
    else
      assert s == [s[0]] + s[1..];
      (if p(s[0]) then [s[0]] else []) + Filter(s[1..], p)
  }

  /** Filtering a concatenation filters each part and keeps them in order. */
  lemma {:induction false} FilterAppend<T(!new)>(a: seq<T>, b: seq<T>, p: T -> bool)
    ensures Filter(a + b, p) == Filter(a, p) + Filter(b, p)
    decreases |a|
  {
    if |a| > 0 {
      assert (a + b)[1..] == a[1..] + b;
      FilterAppend(a[1..], b, p);
    } else {
      assert a + b == b;
    }
  }

  /** Filtering one element keeps it exactly when it satisfies `p`. */
  lemma FilterSingleton<T(!new)>(x: T, p: T -> bool)
    ensures Filter([x], p) == if p(x) then [x] else []
  {
    assert [x][1..] == [];
  }

  /** No two elements share a key. */
  ghost predicate Unique<T, K>(s: seq<T>, key: T -> K) {
    forall i, j :: 0 <= i < j < |s| ==> key(s[i]) != key(s[j])
  }

  /** With unique keys, an element that has the key of position `i` is the element at `i`. */
  lemma UniqueAt<T, K>(s: seq<T>, key: T -> K, i: nat, x: T)
    requires Unique(s, key) && i < |s| && x in s && key(x) == key(s[i])
    ensures x == s[i]
  {
    var j :| 0 <= j < |s| && s[j] == x;
    assert !(j < i) && !(i < j);
  }

  /**
   * Removing position `i` of a collection with unique keys removes exactly the element with
   * that key: one element fewer, every other element kept, and keys still unique.
   */
  lemma RemoveAtKey<T, K>(s: seq<T>, key: T -> K, i: nat)
    requires Unique(s, key) && i < |s|
    ensures |s[..i] + s[i + 1..]| == |s| - 1
    ensures forall x :: x in s[..i] + s[i + 1..] <==> x in s && key(x) != key(s[i])
    ensures Unique(s[..i] + s[i + 1..], key)
  {
    var r := s[..i] + s[i + 1..];
    assert forall j :: 0 <= j < |r| ==> r[j] == if j < i then s[j] else s[j + 1];
    forall x | x in s && key(x) != key(s[i]) ensures x in r {
      var j :| 0 <= j < |s| && s[j] == x;
      assert j != i;
      if j < i { assert r[j] == x; } else { assert r[j - 1] == x; }
    }
  }

  /** Appending an element whose key is new keeps keys unique. */
  lemma AppendFreshKey<T, K>(s: seq<T>, key: T -> K, x: T)
    requires Unique(s, key) && forall y :: y in s ==> key(y) != key(x)
    ensures Unique(s + [x], key)
  {
    var r := s + [x];
    forall i, j | 0 <= i < j < |r| ensures key(r[i]) != key(r[j]) {
      if j == |s| { assert r[i] in s; }
    }
  }

  /** Replacing an element by one with the same key keeps keys unique. */
  lemma ReplaceSameKey<T, K>(s: seq<T>, key: T -> K, i: nat, x: T)
    requires Unique(s, key) && i < |s| && key(x) == key(s[i])
    ensures Unique(s[i := x], key)
  {
  }
}
