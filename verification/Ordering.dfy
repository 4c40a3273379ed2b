/** Stable sorting, and the order of strings. */
module Ordering {
  import opened Basics

  /** Strings compare by their first differing character; a proper prefix comes first. */
  predicate StringLess(a: string, b: string) {
    if b == "" then false
    else if a == "" then true
    else if a[0] != b[0] then a[0] < b[0]
    else StringLess(a[1..], b[1..])
  }

  lemma {:induction false} StringLessIsAsymmetric(a: string, b: string)
    ensures StringLess(a, b) ==> !StringLess(b, a)
  {
    if a != "" && b != "" && a[0] == b[0] {
      StringLessIsAsymmetric(a[1..], b[1..]);
    }
  }

  lemma {:induction false} StringLessIsTotal(a: string, b: string)
    ensures a == b || StringLess(a, b) || StringLess(b, a)
  {
    if a != "" && b != "" && a[0] == b[0] {
      StringLessIsTotal(a[1..], b[1..]);
      assert a == [a[0]] + a[1..] && b == [b[0]] + b[1..];
    }
  }

  lemma {:induction false} StringLessIsTransitive(a: string, b: string, c: string)
    ensures StringLess(a, b) && StringLess(b, c) ==> StringLess(a, c)
  {
    if a != "" && b != "" && c != "" {
      StringLessIsTransitive(a[1..], b[1..], c[1..]);
    }
  }

  /** A strict weak order: the order sorting needs. */
  ghost predicate Sortable<T(!new)>(less: (T, T) -> bool) {
    && (forall a, b :: less(a, b) ==> !less(b, a))
    && (forall a, b, c :: !less(b, a) && !less(c, b) ==> !less(c, a))
  }

  function Insert<T>(s: seq<T>, x: T, less: (T, T) -> bool): seq<T> {
    if s == [] || !less(x, Last(s)) then s + [x] else Insert(s[..|s| - 1], x, less) + [Last(s)]
  }

  /** The entries of `s`, least first, entries that compare equal in their original order. */
  function Sorted<T>(s: seq<T>, less: (T, T) -> bool): seq<T> {
    if s == [] then [] else Insert(Sorted(s[..|s| - 1], less), Last(s), less)
  }

  ghost predicate Ordered<T(!new)>(s: seq<T>, less: (T, T) -> bool) {
    forall i, j :: 0 <= i < j < |s| ==> !less(s[j], s[i])
  }

  lemma {:induction false} InsertKeepsOrder<T(!new)>(s: seq<T>, x: T, less: (T, T) -> bool)
    requires Sortable(less) && Ordered(s, less)
    ensures Ordered(Insert(s, x, less), less) && multiset(Insert(s, x, less)) == multiset(s) + multiset{x}
  {
    if s == [] || !less(x, Last(s)) {
      forall i | 0 <= i < |s| ensures !less(x, s[i]) {
        assert i == |s| - 1 || !less(Last(s), s[i]);
      }
    } else {
      var front := s[..|s| - 1];
      InsertKeepsOrder(front, x, less);
      assert s == front + [Last(s)];
      var r := Insert(front, x, less);
      forall i | 0 <= i < |r| ensures !less(Last(s), r[i]) {
        assert r[i] in multiset(r);
        assert r[i] in front || r[i] == x;
      }
    }
  }

  lemma {:induction false} SortedIsOrdered<T(!new)>(s: seq<T>, less: (T, T) -> bool)
    requires Sortable(less)
    ensures Ordered(Sorted(s, less), less) && multiset(Sorted(s, less)) == multiset(s)
  {
    if s != [] {
      var front := s[..|s| - 1];
      SortedIsOrdered(front, less);
      InsertKeepsOrder(Sorted(front, less), Last(s), less);
      assert s == front + [Last(s)];
    }
  }

  predicate Precedes(a: string, b: string) {
    StringLess(a, b)
  }

  lemma StringsAreSortable()
    ensures Sortable(Precedes)
  {
    forall a, b ensures Precedes(a, b) ==> !Precedes(b, a) {
      StringLessIsAsymmetric(a, b);
    }
    forall a, b, c ensures !Precedes(b, a) && !Precedes(c, b) ==> !Precedes(c, a) {
      StringsNotAfter(a, b, c);
    }
  }

  lemma StringsNotAfter(a: string, b: string, c: string)
    ensures !StringLess(b, a) && !StringLess(c, b) ==> !StringLess(c, a)
  {
    StringLessIsTotal(a, b);
    StringLessIsTotal(b, c);
    StringLessIsTransitive(c, a, b);
    StringLessIsTransitive(a, b, c);
    StringLessIsAsymmetric(a, c);
  }
}
