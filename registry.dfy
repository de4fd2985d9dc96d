/**
 * Ordered ownership lists, shared by every device, physical device and
 * instance of the backends.
 *
 * A registry keeps, per object kind, the objects it created in creation
 * order.  Creating appends; destroying scans from the front and erases the
 * first entry that is the object.  Objects are compared by identity, as the
 * backends compare pointers.
 */
module Registry {
  /** An object a registry hands out: only its identity matters. */
  class Handle {
    constructor () {}
  }

  predicate Distinct<T(==)>(s: seq<T>) {
    forall i, j :: 0 <= i < j < |s| ==> s[i] != s[j]
  }

  /** Position of the first `x` in `s`, or `|s|` when `s` has none. */
  function Find<T(==)>(s: seq<T>, x: T): (i: nat)
    ensures i <= |s|
    ensures i < |s| <==> x in s
    ensures i < |s| ==> s[i] == x
    ensures forall j :: 0 <= j < i ==> s[j] != x
  {
    if s == [] then 0
    else if s[0] == x then 0
    else 1 + Find(s[1..], x)
  }

  /** `s` with its first `x` erased; `s` itself when it has none. */
  function RemoveFirst<T(==)>(s: seq<T>, x: T): seq<T> {
    var i := Find(s, x);
    if i < |s| then s[..i] + s[i + 1..] else s
  }

  /**
   * The linear scan of a destroy: walks the list from the front and stops at
   * the first entry that is `x`, or at the end.
   */
  method ScanFirst<T(==)>(s: seq<T>, x: T) returns (i: nat)
    ensures i == Find(s, x)
  {
    i := 0;
    while i < |s| && s[i] != x
      invariant i <= |s|
      invariant forall j :: 0 <= j < i ==> s[j] != x
    {
      i := i + 1;
    }
  }

  /**
   * Erasing an owned entry removes exactly one occurrence of it: the list
   * shrinks by one, the entries before and after it keep their order, and no
   * other object gains or loses an occurrence.
   */
  lemma RemoveFirstOwned<T>(s: seq<T>, x: T)
    requires x in s
    ensures |RemoveFirst(s, x)| == |s| - 1
    ensures RemoveFirst(s, x) == s[..Find(s, x)] + s[Find(s, x) + 1..]
    ensures multiset(RemoveFirst(s, x)) == multiset(s) - multiset{x}
  {
    var i := Find(s, x);
    assert s == s[..i] + [x] + s[i + 1..];
    MultisetSplit(s[..i], x, s[i + 1..]);
  }

  lemma MultisetSplit<T>(before: seq<T>, x: T, after: seq<T>)
    ensures multiset(before + [x] + after) == multiset(before + after) + multiset{x}
  {
  }

  /** Erasing an object the list does not hold leaves the list as it was. */
  lemma RemoveFirstUnowned<T>(s: seq<T>, x: T)
    requires x !in s
    ensures RemoveFirst(s, x) == s
  {}

  /** Entry `k` of the erased list is entry `k` of the list before the erased position, `k + 1` after it. */
  lemma RemoveFirstAt<T>(s: seq<T>, x: T, k: nat)
    requires x in s && k < |s| - 1
    ensures |RemoveFirst(s, x)| == |s| - 1
    ensures RemoveFirst(s, x)[k] == if k < Find(s, x) then s[k] else s[k + 1]
  {}

  /**
   * In a list without repeats, erasing keeps it without repeats and leaves no
   * further occurrence of the object: a second destroy finds nothing.  Every
   * other object is held afterwards exactly when it was held before.
   */
  lemma RemoveFirstDistinct<T>(s: seq<T>, x: T)
    requires Distinct(s)
    ensures Distinct(RemoveFirst(s, x))
    ensures x !in RemoveFirst(s, x)
    ensures forall y :: y != x ==> (y in RemoveFirst(s, x) <==> y in s)
  {
    if x in s {
      var i := Find(s, x);
      var r := RemoveFirst(s, x);
      forall a, b | 0 <= a < b < |r| ensures r[a] != r[b] {
        RemoveFirstAt(s, x, a);
        RemoveFirstAt(s, x, b);
      }
      forall k | 0 <= k < |r| ensures r[k] != x && r[k] in s {
        RemoveFirstAt(s, x, k);
      }
      forall y | y != x && y in s ensures y in r {
        var k :| 0 <= k < |s| && s[k] == y;
        var k' := if k < i then k else k - 1;
        RemoveFirstAt(s, x, k');
        assert r[k'] == y;
      }
    }
  }

  /** Concatenation of the lists of `kinds`, in the order of `kinds`. */
  function Flatten<K>(lists: map<K, seq<Handle>>, kinds: seq<K>): seq<Handle>
    requires forall k :: k in kinds ==> k in lists
  {
    if kinds == [] then [] else lists[kinds[0]] + Flatten(lists, kinds[1..])
  }

  /** The flattening holds an object exactly when one of the lists of `kinds` does. */
  lemma {:induction false} FlattenHolds<K>(lists: map<K, seq<Handle>>, kinds: seq<K>, h: Handle)
    requires forall k :: k in kinds ==> k in lists
    ensures h in Flatten(lists, kinds) <==> exists k :: k in kinds && h in lists[k]
  {
    if kinds != [] {
      FlattenHolds(lists, kinds[1..], h);
      assert forall k :: k in kinds <==> k == kinds[0] || k in kinds[1..];
    }
  }

  /** Flattening the lists of `kinds` has the sum of their lengths. */
  lemma {:induction false} FlattenLength<K>(lists: map<K, seq<Handle>>, kinds: seq<K>)
    requires forall k :: k in kinds ==> k in lists
    ensures |Flatten(lists, kinds)| == SumLengths(lists, kinds)
  {
    if kinds != [] { FlattenLength(lists, kinds[1..]); }
  }

  function SumLengths<K>(lists: map<K, seq<Handle>>, kinds: seq<K>): nat
    requires forall k :: k in kinds ==> k in lists
  {
    if kinds == [] then 0 else |lists[kinds[0]]| + SumLengths(lists, kinds[1..])
  }

  /** Flattening one more kind appends that kind's list. */
  lemma {:induction false} FlattenSnoc<K>(lists: map<K, seq<Handle>>, kinds: seq<K>, k: K)
    requires forall k' :: k' in kinds ==> k' in lists
    requires k in lists
    ensures Flatten(lists, kinds + [k]) == Flatten(lists, kinds) + lists[k]
  {
    if kinds == [] {
      assert [k][1..] == [];
    } else {
      assert (kinds + [k])[1..] == kinds[1..] + [k];
      FlattenSnoc(lists, kinds[1..], k);
    }
  }

  /**
   * The blanket destructors' loops: visits the objects of every list of
   * `kinds`, list by list and each list front to back, and returns them in
   * the order visited.
   */
  method VisitAll<K>(lists: map<K, seq<Handle>>, kinds: seq<K>) returns (visited: seq<Handle>)
    requires forall k :: k in kinds ==> k in lists
    ensures visited == Flatten(lists, kinds)
  {
    visited := [];
    var n := 0;
    while n < |kinds|
      invariant n <= |kinds|
      invariant visited == Flatten(lists, kinds[..n])
    {
      var list := lists[kinds[n]];
      var j := 0;
      while j < |list|
        invariant j <= |list|
        invariant visited == Flatten(lists, kinds[..n]) + list[..j]
      {
        visited := visited + [list[j]];
        j := j + 1;
        assert list[..j] == list[..j - 1] + [list[j - 1]];
      }
      assert list[..j] == list;
      assert kinds[..n + 1] == kinds[..n] + [kinds[n]];
      FlattenSnoc(lists, kinds[..n], kinds[n]);
      n := n + 1;
    }
    assert kinds[..n] == kinds;
  }
}
