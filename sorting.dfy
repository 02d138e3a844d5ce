/**
 * The stable sort JavaScript's `Array.prototype.sort` performs with a comparator
 * `a.renderOrder - b.renderOrder`; the pipeline uses it for its pass builders and for the
 * post-process effect groups. Each element carries its render order as its key.
 */
module Sorting {

  /** An element together with the render order it is sorted by. */
  datatype Keyed<T> = Keyed(item: T, key: int)

  predicate Sorted<T>(s: seq<Keyed<T>>) {
    forall i, j :: 0 <= i < j < |s| ==> s[i].key <= s[j].key
  }

  /** Inserts `x` into `s` after every leading element whose key is not greater than its own. */
  function Insert<T>(x: Keyed<T>, s: seq<Keyed<T>>): (r: seq<Keyed<T>>)
    ensures multiset(r) == multiset(s) + multiset{x} && |r| == |s| + 1
  {
    if |s| == 0 then [x]
    else if x.key < s[0].key then [x] + s
    else
      assert s == [s[0]] + s[1..];
      [s[0]] + Insert(x, s[1..])
  }

  /** Inserting into a sorted sequence keeps it sorted. */
  lemma {:induction false} InsertSorted<T>(x: Keyed<T>, s: seq<Keyed<T>>)
    requires Sorted(s)
    ensures Sorted(Insert(x, s))
  {
    if |s| > 0 && s[0].key <= x.key {
      var rest := Insert(x, s[1..]);
      InsertSorted(x, s[1..]);
      forall k | 0 <= k < |rest|
        ensures s[0].key <= rest[k].key
      {
        assert rest[k] in multiset(s[1..]) + multiset{x};
        if rest[k] != x {
          assert rest[k] in s[1..];
        }
      }
      assert Insert(x, s) == [s[0]] + rest;
    }
  }

  /** Stable insertion sort by key: the result is sorted and a permutation of the input. */
  function Sort<T>(s: seq<Keyed<T>>): (r: seq<Keyed<T>>)
    ensures Sorted(r) && multiset(r) == multiset(s) && |r| == |s|
  {
    if |s| == 0 then []
    else
      assert s == s[..|s| - 1] + [s[|s| - 1]];
      var init := Sort(s[..|s| - 1]);
      InsertSorted(s[|s| - 1], init);
      Insert(s[|s| - 1], init)
  }

  /** Sorting an already sorted sequence leaves it as it is. */
  lemma {:induction false} SortSortedIsIdentity<T>(s: seq<Keyed<T>>)
    requires Sorted(s)
    ensures Sort(s) == s
  {
    if |s| > 0 {
      var init := s[..|s| - 1];
      SortSortedIsIdentity(init);
      InsertLast(s[|s| - 1], init);
      assert init + [s[|s| - 1]] == s;
    }
  }

  lemma {:induction false} InsertLast<T>(x: Keyed<T>, s: seq<Keyed<T>>)
    requires Sorted(s + [x])
    ensures Sorted(s) && Insert(x, s) == s + [x]
  {
    assert Sorted(s) by {
      forall i, j | 0 <= i < j < |s| ensures s[i].key <= s[j].key {
        assert (s + [x])[i] == s[i] && (s + [x])[j] == s[j];
      }
    }
    if |s| > 0 {
      assert (s + [x])[0] == s[0] && (s + [x])[|s|] == x;
      assert s[1..] + [x] == (s + [x])[1..];
      InsertLast(x, s[1..]);
      assert [s[0]] + (s[1..] + [x]) == s + [x];
    }
  }

  /** Two elements swap exactly when the second has the smaller key; equal keys keep their order. */
  lemma SortPair<T>(a: Keyed<T>, b: Keyed<T>)
    ensures Sort([a, b]) == if b.key < a.key then [b, a] else [a, b]
  {
    assert [a, b][..1] == [a];
    assert Sort([a]) == [a] by {
      assert [a][..0] == [];
    }
    assert [a][1..] == [];
  }

  /** The sort of at most two elements: the two swap exactly when the second has the smaller key. */
  function ShortSort<T>(s: seq<Keyed<T>>): seq<Keyed<T>>
    requires |s| <= 2
  {
    if |s| == 2 && s[1].key < s[0].key then [s[1], s[0]] else s
  }

  /** `ShortSort` is the stable sort on sequences of at most two elements. */
  lemma SortShort<T>(s: seq<Keyed<T>>)
    requires |s| <= 2
    ensures Sort(s) == ShortSort(s)
  {
    if |s| == 2 {
      assert s == [s[0], s[1]];
      SortPair(s[0], s[1]);
    } else {
      SortKeepsMembers(s);
    }
  }

  /** Sorting keeps exactly the elements it was given; at most one element is already sorted. */
  lemma SortKeepsMembers<T>(s: seq<Keyed<T>>)
    ensures forall x :: x in Sort(s) <==> x in s
    ensures |s| <= 1 ==> Sort(s) == s
  {
    var r := Sort(s);
    forall x
      ensures x in r <==> x in s
    {
      assert x in r <==> x in multiset(r);
      assert x in s <==> x in multiset(s);
    }
    if |s| == 1 {
      assert r[0] in multiset(s);
    }
  }
}
