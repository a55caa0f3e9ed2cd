/**
 * `Array.prototype.sort` with a comparator, which is stable since
 * ECMAScript 2019: an entry goes after every earlier entry it does not
 * compare below. The model is an insertion sort with that tie rule.
 */
module StableSort {

  /** Insert `x` before the first entry it compares at or below. */
  function Insert<T>(x: T, s: seq<T>, cmp: (T, T) -> int): (r: seq<T>)
    ensures |r| == |s| + 1
    ensures multiset(r) == multiset(s) + multiset{x}
    decreases |s|
  {
    if s == [] then [x]
    else if cmp(x, s[0]) <= 0 then [x] + s
    else assert s == [s[0]] + s[1..]; [s[0]] + Insert(x, s[1..], cmp)
  }

  /** `s.slice().sort(cmp)` */
  function Sort<T>(s: seq<T>, cmp: (T, T) -> int): (r: seq<T>)
    ensures multiset(r) == multiset(s)
    ensures |r| == |s|
    decreases |s|
  {
    if s == [] then []
    else assert s == [s[0]] + s[1..]; Insert(s[0], Sort(s[1..], cmp), cmp)
  }

  /** Every entry compares at or below the next one. */
  predicate Sorted<T>(s: seq<T>, cmp: (T, T) -> int) {
    forall i | 0 <= i < |s| - 1 :: cmp(s[i], s[i + 1]) <= 0
  }

  /**
   * The comparator never puts both of two entries strictly after each
   * other; every comparator the pages pass has this property.
   */
  ghost predicate Coherent<T(!new)>(cmp: (T, T) -> int) {
    forall x: T, y: T :: cmp(x, y) > 0 ==> cmp(y, x) <= 0
  }

  lemma {:induction false} InsertSorted<T(!new)>(x: T, s: seq<T>, cmp: (T, T) -> int)
    requires Coherent(cmp) && Sorted(s, cmp)
    ensures Sorted(Insert(x, s, cmp), cmp)
    ensures s != [] ==> Insert(x, s, cmp)[0] == x || Insert(x, s, cmp)[0] == s[0]
    decreases |s|
  {
    if s != [] && cmp(x, s[0]) > 0 {
      InsertSorted(x, s[1..], cmp);
      var r := Insert(x, s, cmp);
      var t := Insert(x, s[1..], cmp);
      assert r == [s[0]] + t;
      forall i | 0 <= i < |r| - 1 ensures cmp(r[i], r[i + 1]) <= 0 {
        if i > 0 {
          assert r[i] == t[i - 1] && r[i + 1] == t[i];
        }
      }
    }
  }

  /** The sorted list is ordered by the comparator. */
  lemma {:induction false} SortSorted<T(!new)>(s: seq<T>, cmp: (T, T) -> int)
    requires Coherent(cmp)
    ensures Sorted(Sort(s, cmp), cmp)
    decreases |s|
  {
    if s != [] {
      SortSorted(s[1..], cmp);
      InsertSorted(s[0], Sort(s[1..], cmp), cmp);
    }
  }

  /** A comparator that calls every pair equal leaves the order as it was. */
  lemma {:induction false} SortAllEqual<T>(s: seq<T>, cmp: (T, T) -> int)
    requires forall i, j | 0 <= i < |s| && 0 <= j < |s| :: cmp(s[i], s[j]) == 0
    ensures Sort(s, cmp) == s
    decreases |s|
  {
    if s != [] {
      SortAllEqual(s[1..], cmp);
      var rest := Sort(s[1..], cmp);
      if rest != [] {
        assert rest[0] == s[1];
        assert cmp(s[0], s[1]) == 0;
      }
      assert s == [s[0]] + s[1..];
    }
  }
}
