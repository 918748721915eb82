/** A stable sort by a comparison, as the language's own sort does it for a consistent comparison. */
module StableSort {
  /** The facts a comparison must have for sorting to mean anything. */
  ghost predicate WeakOrder<T(!new)>(before: (T, T) -> bool) {
    && (forall a, b :: before(a, b) ==> !before(b, a))
    && (forall a, b, c :: !before(a, b) && !before(b, c) ==> !before(a, c))
  }

  predicate Sorted<T>(s: seq<T>, before: (T, T) -> bool) {
    forall i, j :: 0 <= i < j < |s| ==> !before(s[j], s[i])
  }

  function Insert<T>(s: seq<T>, x: T, before: (T, T) -> bool): (r: seq<T>) {
    if s == [] || !before(x, s[|s| - 1]) then s + [x] else Insert(s[..|s| - 1], x, before) + [s[|s| - 1]]
  }

  function Sort<T>(s: seq<T>, before: (T, T) -> bool): seq<T> {
    if s == [] then [] else Insert(Sort(s[..|s| - 1], before), s[|s| - 1], before)
  }

  lemma {:induction false} InsertKeeps<T>(s: seq<T>, x: T, before: (T, T) -> bool)
    ensures multiset(Insert(s, x, before)) == multiset(s) + multiset{x}
  {
    if s != [] && before(x, s[|s| - 1]) {
      InsertKeeps(s[..|s| - 1], x, before);
      assert s == s[..|s| - 1] + [s[|s| - 1]];
    }
  }

  lemma {:induction false} SortKeeps<T>(s: seq<T>, before: (T, T) -> bool)
    ensures multiset(Sort(s, before)) == multiset(s)
  {
    if s != [] {
      SortKeeps(s[..|s| - 1], before);
      InsertKeeps(Sort(s[..|s| - 1], before), s[|s| - 1], before);
      assert s == s[..|s| - 1] + [s[|s| - 1]];
    }
  }

  lemma {:induction false} InsertSorted<T(!new)>(s: seq<T>, x: T, before: (T, T) -> bool)
    requires WeakOrder(before) && Sorted(s, before)
    ensures Sorted(Insert(s, x, before), before)
  {
    var n := |s| - 1;
    if s != [] {
      if before(x, s[n]) {
        InsertSorted(s[..n], x, before);
        var r := Insert(s[..n], x, before);
        InsertKeeps(s[..n], x, before);
        forall i | 0 <= i < |r|
          ensures !before(s[n], r[i])
        {
          assert r[i] in multiset(r);
        }
      } else {
        forall i | 0 <= i < |s|
          ensures !before(x, s[i])
        {
          assert i < n ==> !before(s[n], s[i]);
        }
      }
    }
  }

  /** The result is the same elements in order. */
  lemma {:induction false} SortSorts<T(!new)>(s: seq<T>, before: (T, T) -> bool)
    requires WeakOrder(before)
    ensures Sorted(Sort(s, before), before)
  {
    hide WeakOrder;
    if s != [] {
      SortSorts(s[..|s| - 1], before);
      InsertSorted(Sort(s[..|s| - 1], before), s[|s| - 1], before);
    }
  }
}
