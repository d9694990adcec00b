/**
 * The list operations the dashboard leans on (`Array.prototype.filter`, `find`,
 * `some`, `splice`, `map`), written once and proved once, so that the
 * component models can state their properties in terms of them.
 */
module Collections {
  import opened Common

  /** `r` can be obtained from `s` by deleting elements: same relative order. */
  ghost predicate IsSubsequence<T>(r: seq<T>, s: seq<T>)
    decreases |s|
  {
    if r == [] then true
    else if s == [] then false
    else (r[0] == s[0] && IsSubsequence(r[1..], s[1..])) || IsSubsequence(r, s[1..])
  }

  /** `s.filter(p)`: the elements of `s` satisfying `p`, in their original order. */
  function Filter<T(==,!new)>(s: seq<T>, p: T -> bool): (r: seq<T>)
    ensures |r| <= |s|
    ensures forall x :: x in r <==> x in s && p(x)
  {
    if s == [] then []
    else
      var rest := Filter(s[1..], p);
      assert s == [s[0]] + s[1..];
      if p(s[0]) then [s[0]] + rest else rest
  }

  /** Filtering keeps every passing element as often as it occurs, and no other. */
  lemma {:induction false} FilterCounts<T(!new)>(s: seq<T>, p: T -> bool)
    ensures forall x :: multiset(Filter(s, p))[x] == if p(x) then multiset(s)[x] else 0
  {
    if s != [] {
      FilterCounts(s[1..], p);
      assert s == [s[0]] + s[1..];
    }
  }

  /** Filtering keeps the relative order of what it keeps. */
  lemma {:induction false} FilterIsSubsequence<T(!new)>(s: seq<T>, p: T -> bool)
    ensures IsSubsequence(Filter(s, p), s)
  {
    if s != [] {
      FilterIsSubsequence(s[1..], p);
      var rest := Filter(s[1..], p);
      if p(s[0]) {
        assert ([s[0]] + rest)[1..] == rest;
      }
    }
  }

  /** Filtering keeps a list whole exactly when every element passes. */
  lemma {:induction false} FilterKeepsAll<T(!new)>(s: seq<T>, p: T -> bool)
    requires forall x :: x in s ==> p(x)
    ensures Filter(s, p) == s
  {
    if s != [] {
      FilterKeepsAll(s[1..], p);
      assert s == [s[0]] + s[1..];
    }
  }

  /** One step of `Filter`: the head is kept when it passes, then the tail is filtered. */
  lemma FilterHead<T(!new)>(s: seq<T>, p: T -> bool)
    requires s != []
    ensures Filter(s, p) == (if p(s[0]) then [s[0]] else []) + Filter(s[1..], p)
  {
    if !p(s[0]) {
      assert [] + Filter(s[1..], p) == Filter(s[1..], p);
    }
  }

  /** Filtering distributes over concatenation. */
  lemma {:induction false} FilterAppend<T(!new)>(a: seq<T>, b: seq<T>, p: T -> bool)
    ensures Filter(a + b, p) == Filter(a, p) + Filter(b, p)
  {
    if a == [] {
      assert a + b == b;
      assert Filter(a, p) == [];
    } else {
      var ab := a + b;
      assert ab[0] == a[0] && ab[1..] == a[1..] + b;
      var head := if p(a[0]) then [a[0]] else [];
      calc {
        Filter(ab, p);
        { FilterHead(ab, p); }
        head + Filter(a[1..] + b, p);
        { FilterAppend(a[1..], b, p); }
        head + (Filter(a[1..], p) + Filter(b, p));
        (head + Filter(a[1..], p)) + Filter(b, p);
        { FilterHead(a, p); }
        Filter(a, p) + Filter(b, p);
      }
    }
  }

  /** `s.find(p)`: the first element satisfying `p`, if any. */
  function FindFirst<T>(s: seq<T>, p: T -> bool): (r: Option<T>)
    ensures r.None? <==> forall i :: 0 <= i < |s| ==> !p(s[i])
    ensures r.Some? ==> exists i :: 0 <= i < |s| && s[i] == r.value && p(s[i]) &&
                                    forall j :: 0 <= j < i ==> !p(s[j])
  {
    if s == [] then None
    else if p(s[0]) then Some(s[0])
    else
      var r := FindFirst(s[1..], p);
      assert forall i :: 1 <= i < |s| ==> s[i] == s[1..][i - 1];
      r
  }

  /** `s.some(x => key(x) === k)`. */
  predicate HasKey<T>(s: seq<T>, key: T -> int, k: int) {
    exists i :: 0 <= i < |s| && key(s[i]) == k
  }

  /** `s.map(key)`. */
  function Keys<T>(s: seq<T>, key: T -> int): (r: seq<int>)
    ensures |r| == |s| && forall i :: 0 <= i < |s| ==> r[i] == key(s[i])
  {
    seq(|s|, i requires 0 <= i < |s| => key(s[i]))
  }

  /** No two entries of `s` share a key. */
  ghost predicate DistinctKeys<T>(s: seq<T>, key: T -> int) {
    forall i, j :: 0 <= i < |s| && 0 <= j < |s| && i != j ==> key(s[i]) != key(s[j])
  }

  /** Dropping elements cannot make two keys collide. */
  lemma {:induction false} FilterKeepsDistinct<T(!new)>(s: seq<T>, p: T -> bool, key: T -> int)
    requires DistinctKeys(s, key)
    ensures DistinctKeys(Filter(s, p), key)
  {
    if s != [] {
      var tail := s[1..];
      assert DistinctKeys(tail, key) by {
        forall i, j | 0 <= i < |tail| && 0 <= j < |tail| && i != j
          ensures key(tail[i]) != key(tail[j])
        {
          assert tail[i] == s[i + 1] && tail[j] == s[j + 1];
        }
      }
      FilterKeepsDistinct(tail, p, key);
      var rest := Filter(tail, p);
      if p(s[0]) {
        var r := [s[0]] + rest;
        forall j | 1 <= j < |r| ensures key(r[j]) != key(s[0]) {
          assert r[j] == rest[j - 1] && rest[j - 1] in tail;
          var k :| 0 <= k < |tail| && tail[k] == r[j];
          assert s[k + 1] == r[j];
        }
      }
    }
  }

  /** Appending an element whose key is new keeps the keys distinct. */
  lemma AppendKeepsDistinct<T>(s: seq<T>, x: T, key: T -> int)
    requires DistinctKeys(s, key)
    requires !HasKey(s, key, key(x))
    ensures DistinctKeys(s + [x], key)
  {
    var r := s + [x];
    forall i, j | 0 <= i < |r| && 0 <= j < |r| && i != j
      ensures key(r[i]) != key(r[j])
    {
      if i < |s| && j < |s| {
        assert r[i] == s[i] && r[j] == s[j];
      } else if i < |s| {
        assert r[i] == s[i];
      } else {
        assert r[j] == s[j];
      }
    }
  }

  /** `copy.splice(i, 1)` on a copy of `s`: out-of-range indices leave the list alone. */
  function RemoveAt<T>(s: seq<T>, i: nat): (r: seq<T>)
    ensures i < |s| ==> |r| == |s| - 1
    ensures i < |s| ==> forall k :: 0 <= k < i ==> r[k] == s[k]
    ensures i < |s| ==> forall k :: i <= k < |r| ==> r[k] == s[k + 1]
    ensures i >= |s| ==> r == s
  {
    if i < |s| then s[..i] + s[i + 1..] else s
  }

  /** Putting the removed element back where it was restores the list. */
  lemma RemoveAtInverse<T>(s: seq<T>, i: nat)
    requires i < |s|
    ensures RemoveAt(s, i)[..i] + [s[i]] + RemoveAt(s, i)[i..] == s
    ensures multiset(RemoveAt(s, i)) + multiset{s[i]} == multiset(s)
  {
    var r := RemoveAt(s, i);
    assert r[..i] == s[..i];
    assert r[i..] == s[i + 1..];
    assert s == s[..i] + [s[i]] + s[i + 1..];
  }
}
