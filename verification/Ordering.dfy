/** Sorting under a total order, and the order Python gives strings. */
module Ordering {
  import opened Sequences

  /** Python's `a <= b` on strings: code point by code point. */
  predicate LexLe(a: string, b: string) {
    if a == "" then true
    else if b == "" then false
    else if a[0] != b[0] then a[0] < b[0]
    else LexLe(a[1..], b[1..])
  }

  lemma {:induction false} LexTotal(a: string, b: string)
    ensures LexLe(a, b) || LexLe(b, a)
  {
    if a != "" && b != "" && a[0] == b[0] {
      LexTotal(a[1..], b[1..]);
    }
  }

  lemma {:induction false} LexTransitive(a: string, b: string, c: string)
    requires LexLe(a, b) && LexLe(b, c)
    ensures LexLe(a, c)
  {
    if a != "" && b != "" && c != "" && a[0] == b[0] && b[0] == c[0] {
      LexTransitive(a[1..], b[1..], c[1..]);
    }
  }

  lemma {:induction false} LexAntisymmetric(a: string, b: string)
    requires LexLe(a, b) && LexLe(b, a)
    ensures a == b
  {
    if a != "" && b != "" {
      LexAntisymmetric(a[1..], b[1..]);
      assert a == [a[0]] + a[1..] && b == [b[0]] + b[1..];
    }
  }

  /** The first difference decides, and a proper prefix comes first. */
  lemma {:induction false} FirstDifferenceDecides(p: string, c: char, s: string, d: char, t: string)
    requires c < d
    ensures LexLe(p + [c] + s, p + [d] + t) && !LexLe(p + [d] + t, p + [c] + s)
    ensures LexLe(p, p + [c] + s) && !LexLe(p + [c] + s, p)
  {
    var x, y := p + [c] + s, p + [d] + t;
    if p != "" {
      assert x[1..] == p[1..] + [c] + s && y[1..] == p[1..] + [d] + t;
      FirstDifferenceDecides(p[1..], c, s, d, t);
    }
  }

  ghost predicate IsOrder<T(!new)>(leq: (T, T) -> bool) {
    && (forall x, y :: leq(x, y) || leq(y, x))
    && (forall x, y, z :: leq(x, y) && leq(y, z) ==> leq(x, z))
  }

  ghost predicate SortedBy<T(!new)>(s: seq<T>, leq: (T, T) -> bool) {
    forall i, j :: 0 <= i < j < |s| ==> leq(s[i], s[j])
  }

  /** Insert `x` after every element that may stand before it. */
  function InsertBy<T>(s: seq<T>, x: T, leq: (T, T) -> bool): (r: seq<T>)
    ensures |r| == |s| + 1
  {
    if s == [] then [x]
    else if leq(s[|s| - 1], x) then s + [x]
    else InsertBy(s[..|s| - 1], x, leq) + [s[|s| - 1]]
  }

  /** Python's stable sort, with the sort key given as the order it induces. */
  function SortBy<T>(s: seq<T>, leq: (T, T) -> bool): (r: seq<T>)
    ensures |r| == |s|
  {
    if s == [] then [] else InsertBy(SortBy(s[..|s| - 1], leq), s[|s| - 1], leq)
  }

  /** Inserting is a splice: nothing already present moves relative to the rest. */
  lemma {:induction false} InsertSplices<T>(s: seq<T>, x: T, leq: (T, T) -> bool) returns (q: nat)
    ensures q <= |s| && InsertBy(s, x, leq) == s[..q] + [x] + s[q..]
  {
    if s == [] || leq(s[|s| - 1], x) {
      q := |s|;
    } else {
      var front := s[..|s| - 1];
      q := InsertSplices(front, x, leq);
      assert s[..q] == front[..q];
      assert s[q..] == front[q..] + [s[|s| - 1]];
    }
  }

  lemma DropLast<T>(s: seq<T>)
    requires s != []
    ensures multiset(s) == multiset(s[..|s| - 1]) + multiset{s[|s| - 1]}
  {
    assert s == s[..|s| - 1] + [s[|s| - 1]];
  }

  lemma {:induction false} InsertByMultiset<T>(s: seq<T>, x: T, leq: (T, T) -> bool)
    ensures multiset(InsertBy(s, x, leq)) == multiset(s) + multiset{x}
  {
    if s != [] && !leq(s[|s| - 1], x) {
      InsertByMultiset(s[..|s| - 1], x, leq);
      assert s == s[..|s| - 1] + [s[|s| - 1]];
    }
  }

  lemma {:induction false} SortByMultiset<T>(s: seq<T>, leq: (T, T) -> bool)
    ensures multiset(SortBy(s, leq)) == multiset(s)
  {
    if s != [] {
      SortByMultiset(s[..|s| - 1], leq);
      InsertByMultiset(SortBy(s[..|s| - 1], leq), s[|s| - 1], leq);
      DropLast(s);
    }
  }

  lemma {:induction false} InsertBySorted<T(!new)>(s: seq<T>, x: T, leq: (T, T) -> bool)
    requires IsOrder(leq) && SortedBy(s, leq)
    ensures SortedBy(InsertBy(s, x, leq), leq)
  {
    if s != [] {
      var front, last := s[..|s| - 1], s[|s| - 1];
      if leq(last, x) {
        forall i | 0 <= i < |s| ensures leq(s[i], x) {
          assert i < |s| - 1 ==> leq(s[i], last);
        }
      } else {
        InsertBySorted(front, x, leq);
        var t := InsertBy(front, x, leq);
        InsertByMultiset(front, x, leq);
        forall i | 0 <= i < |t| ensures leq(t[i], last) {
          assert t[i] in multiset(front) + multiset{x};
          if t[i] in front {
            var j :| 0 <= j < |front| && front[j] == t[i];
            assert leq(s[j], s[|s| - 1]);
          }
        }
      }
    }
  }

  lemma {:induction false} SortBySorted<T(!new)>(s: seq<T>, leq: (T, T) -> bool)
    requires IsOrder(leq)
    ensures SortedBy(SortBy(s, leq), leq)
  {
    if s != [] {
      SortBySorted(s[..|s| - 1], leq);
      InsertBySorted(SortBy(s[..|s| - 1], leq), s[|s| - 1], leq);
    }
  }

  // ----- stability ----------------------------------------------------------

  lemma FilterAppend<T>(s: seq<T>, x: T, p: T -> bool)
    ensures Filter(s + [x], p) == Filter(s, p) + if p(x) then [x] else []
  {
    assert (s + [x])[..|s|] == s;
  }

  /** An element that goes last still goes last among the kept ones. */
  lemma LastStaysLast<T(!new)>(s: seq<T>, x: T, leq: (T, T) -> bool, p: T -> bool)
    requires IsOrder(leq) && SortedBy(s, leq) && s != [] && leq(s[|s| - 1], x)
    ensures InsertBy(Filter(s, p), x, leq) == Filter(s, p) + [x]
  {
    if Filter(s, p) != [] {
      var greatest := Filter(s, p)[|Filter(s, p)| - 1];
      FilterMember(s, p, greatest);
      assert greatest in multiset(s);
      LastIsGreatest(s, leq, greatest);
    }
  }

  lemma {:induction false} InsertCommutesWithFilter<T(!new)>(s: seq<T>, x: T, leq: (T, T) -> bool, p: T -> bool)
    requires IsOrder(leq) && SortedBy(s, leq)
    ensures Filter(InsertBy(s, x, leq), p) == if p(x) then InsertBy(Filter(s, p), x, leq) else Filter(s, p)
  {
    if s == [] {
      assert [x][..0] == [];
    } else if leq(s[|s| - 1], x) {
      FilterAppend(s, x, p);
      LastStaysLast(s, x, leq, p);
    } else {
      var front, last := s[..|s| - 1], s[|s| - 1];
      InsertCommutesWithFilter(front, x, leq, p);
      FilterAppend(InsertBy(front, x, leq), last, p);
      if p(last) && p(x) {
        assert (Filter(front, p) + [last])[..|Filter(front, p)|] == Filter(front, p);
      }
    }
  }

  /** Filtering before sorting is filtering after sorting. */
  lemma {:induction false} SortCommutesWithFilter<T(!new)>(s: seq<T>, leq: (T, T) -> bool, p: T -> bool)
    requires IsOrder(leq)
    ensures SortBy(Filter(s, p), leq) == Filter(SortBy(s, leq), p)
  {
    if s != [] {
      var front, last := s[..|s| - 1], s[|s| - 1];
      SortCommutesWithFilter(front, leq, p);
      SortBySorted(front, leq);
      InsertCommutesWithFilter(SortBy(front, leq), last, leq, p);
      if p(last) {
        assert (Filter(front, p) + [last])[..|Filter(front, p)|] == Filter(front, p);
      }
    }
  }

  /** Sorting leaves a sorted list alone. */
  lemma {:induction false} SortOfSorted<T(!new)>(s: seq<T>, leq: (T, T) -> bool)
    requires SortedBy(s, leq)
    ensures SortBy(s, leq) == s
  {
    if s != [] {
      SortOfSorted(s[..|s| - 1], leq);
    }
  }

  // ----- sorting by a number ------------------------------------------------

  function ByKey<T>(key: T -> int): (T, T) -> bool {
    (x: T, y: T) => key(x) <= key(y)
  }

  /** sorted(s, key=key). */
  function SortByKey<T>(s: seq<T>, key: T -> int): seq<T> {
    SortBy(s, ByKey(key))
  }

  lemma KeyIsOrder<T(!new)>(key: T -> int)
    ensures IsOrder(ByKey(key))
  {
  }

  lemma SortIsSorted<T(!new)>(s: seq<T>, key: T -> int)
    ensures forall i, j :: 0 <= i < j < |s| ==> key(SortByKey(s, key)[i]) <= key(SortByKey(s, key)[j])
  {
    KeyIsOrder(key);
    SortBySorted(s, ByKey(key));
    forall i, j | 0 <= i < j < |s| ensures key(SortByKey(s, key)[i]) <= key(SortByKey(s, key)[j]) {
      assert ByKey(key)(SortByKey(s, key)[i], SortByKey(s, key)[j]);
    }
  }

  function HasKey<T>(key: T -> int, k: int): T -> bool {
    (x: T) => key(x) == k
  }

  /** Stability: elements with equal keys keep the order they came in. */
  lemma SortIsStable<T(!new)>(s: seq<T>, key: T -> int, k: int)
    ensures Filter(SortByKey(s, key), HasKey(key, k)) == Filter(s, HasKey(key, k))
  {
    var p := HasKey(key, k);
    KeyIsOrder(key);
    SortCommutesWithFilter(s, ByKey(key), p);
    var ties := Filter(s, p);
    forall i, j | 0 <= i < j < |ties| ensures ByKey(key)(ties[i], ties[j]) {
      FilterMember(s, p, ties[i]);
      FilterMember(s, p, ties[j]);
    }
    SortOfSorted(ties, ByKey(key));
  }

  // ----- what determines a sorted list --------------------------------------

  /** The last element is an upper bound, hence the same in both lists. */
  lemma LastIsGreatest<T(!new)>(s: seq<T>, leq: (T, T) -> bool, x: T)
    requires IsOrder(leq) && SortedBy(s, leq) && x in multiset(s)
    ensures s != [] && leq(x, s[|s| - 1])
  {
    var i :| 0 <= i < |s| && s[i] == x;
    assert leq(x, x);
  }

  lemma SameLast<T(!new)>(s: seq<T>, t: seq<T>, leq: (T, T) -> bool)
    requires IsOrder(leq) && SortedBy(s, leq) && SortedBy(t, leq) && multiset(s) == multiset(t) && s != [] && t != []
    requires forall x, y :: x in s && y in s && leq(x, y) && leq(y, x) ==> x == y
    ensures s[|s| - 1] == t[|t| - 1]
  {
    var x, y := s[|s| - 1], t[|t| - 1];
    assert x in multiset(s) && y in multiset(t);
    LastIsGreatest(s, leq, y);
    LastIsGreatest(t, leq, x);
    assert y in s;
  }

  lemma SameFront<T>(s: seq<T>, t: seq<T>)
    requires multiset(s) == multiset(t) && s != [] && t != [] && s[|s| - 1] == t[|t| - 1]
    ensures multiset(s[..|s| - 1]) == multiset(t[..|t| - 1])
  {
    DropLast(s);
    DropLast(t);
    assert multiset(s[..|s| - 1]) == multiset(s) - multiset{s[|s| - 1]};
    assert multiset(t[..|t| - 1]) == multiset(t) - multiset{t[|t| - 1]};
  }

  /** Where the order tells the elements apart, a sorted list is determined by what is in it. */
  lemma {:induction false} SortedUnique<T(!new)>(s: seq<T>, t: seq<T>, leq: (T, T) -> bool)
    requires IsOrder(leq) && SortedBy(s, leq) && SortedBy(t, leq) && multiset(s) == multiset(t)
    requires forall x, y :: x in s && y in s && leq(x, y) && leq(y, x) ==> x == y
    ensures s == t
    decreases |s|
  {
    assert |s| == |multiset(s)| == |multiset(t)| == |t|;
    if s != [] {
      SameLast(s, t, leq);
      SameFront(s, t);
      SortedUnique(s[..|s| - 1], t[..|t| - 1], leq);
      assert s == s[..|s| - 1] + [s[|s| - 1]] && t == t[..|t| - 1] + [t[|t| - 1]];
    }
  }

  /** So sorting gives the same list whatever order the elements come in. */
  lemma SortByIgnoresOrder<T(!new)>(s: seq<T>, t: seq<T>, leq: (T, T) -> bool)
    requires IsOrder(leq) && multiset(s) == multiset(t)
    requires forall x, y :: x in s && y in s && leq(x, y) && leq(y, x) ==> x == y
    ensures SortBy(s, leq) == SortBy(t, leq)
  {
    SortBySorted(s, leq);
    SortBySorted(t, leq);
    SortByMultiset(s, leq);
    SortByMultiset(t, leq);
    forall x | x in SortBy(s, leq) ensures x in s {
      assert x in multiset(s);
    }
    SortedUnique(SortBy(s, leq), SortBy(t, leq), leq);
  }
}
