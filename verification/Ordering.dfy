/** Stable sorting by a comparison, selections, and sequences without repetition. */
module Ordering {
  ghost predicate TotalPreorder<T(!new)>(le: (T, T) -> bool) {
    && (forall x, y :: le(x, y) || le(y, x))
    && (forall x, y, z :: le(x, y) && le(y, z) ==> le(x, z))
  }

  ghost predicate SortedBy<T>(le: (T, T) -> bool, s: seq<T>) {
    forall i, j :: 0 <= i < j < |s| ==> le(s[i], s[j])
  }

  /** Insert after every element that does not come later. */
  function Insert<T>(le: (T, T) -> bool, s: seq<T>, x: T): seq<T> {
    if s == [] then [x]
    else if le(s[|s| - 1], x) then s + [x]
    else Insert(le, s[..|s| - 1], x) + [s[|s| - 1]]
  }

  function Sort<T>(le: (T, T) -> bool, s: seq<T>): seq<T> {
    if s == [] then [] else Insert(le, Sort(le, s[..|s| - 1]), s[|s| - 1])
  }

  lemma {:induction false} InsertPermutes<T>(le: (T, T) -> bool, s: seq<T>, x: T)
    ensures |Insert(le, s, x)| == |s| + 1
    ensures multiset(Insert(le, s, x)) == multiset(s) + multiset{x}
  {
    if s != [] {
      assert s == s[..|s| - 1] + [s[|s| - 1]];
      InsertPermutes(le, s[..|s| - 1], x);
    }
  }

  lemma {:induction false} SortPermutes<T>(le: (T, T) -> bool, s: seq<T>)
    ensures |Sort(le, s)| == |s|
    ensures multiset(Sort(le, s)) == multiset(s)
  {
    if s != [] {
      assert s == s[..|s| - 1] + [s[|s| - 1]];
      SortPermutes(le, s[..|s| - 1]);
      InsertPermutes(le, Sort(le, s[..|s| - 1]), s[|s| - 1]);
    }
  }

  lemma {:induction false} InsertSorted<T(!new)>(le: (T, T) -> bool, s: seq<T>, x: T)
    requires TotalPreorder(le) && SortedBy(le, s)
    ensures SortedBy(le, Insert(le, s, x))
  {
    if s != [] && !le(s[|s| - 1], x) {
      var init, last := s[..|s| - 1], s[|s| - 1];
      InsertSorted(le, init, x);
      forall y | y in Insert(le, init, x) ensures le(y, last) {
        InsertMembers(le, init, x, y);
      }
      hide Insert;
    }
  }

  lemma {:induction false} InsertMembers<T>(le: (T, T) -> bool, s: seq<T>, x: T, y: T)
    ensures y in Insert(le, s, x) <==> y == x || y in s
  {
    if s != [] && !le(s[|s| - 1], x) {
      InsertMembers(le, s[..|s| - 1], x, y);
      assert s == s[..|s| - 1] + [s[|s| - 1]];
    }
  }

  lemma {:induction false} SortSorted<T(!new)>(le: (T, T) -> bool, s: seq<T>)
    requires TotalPreorder(le)
    ensures SortedBy(le, Sort(le, s))
  {
    if s != [] {
      SortSorted(le, s[..|s| - 1]);
      InsertSorted(le, Sort(le, s[..|s| - 1]), s[|s| - 1]);
    }
  }

  /** The elements of `s` are pairwise ordered one way only. */
  ghost predicate AntisymmetricOn<T>(le: (T, T) -> bool, s: seq<T>) {
    forall x, y :: x in s && y in s && le(x, y) && le(y, x) ==> x == y
  }

  lemma HeadLeast<T(!new)>(le: (T, T) -> bool, s: seq<T>, x: T)
    requires TotalPreorder(le) && SortedBy(le, s) && x in s
    ensures le(s[0], x)
  {
  }

  lemma TailSorted<T>(le: (T, T) -> bool, s: seq<T>)
    requires SortedBy(le, s) && AntisymmetricOn(le, s) && s != []
    ensures SortedBy(le, s[1..]) && AntisymmetricOn(le, s[1..])
    ensures multiset(s[1..]) == multiset(s) - multiset{s[0]}
  {
    assert s == [s[0]] + s[1..];
    forall x | x in s[1..] ensures x in s {
    }
  }

  lemma SameMembers<T>(s: seq<T>, t: seq<T>)
    requires multiset(s) == multiset(t)
    ensures |s| == |t|
    ensures forall x :: x in s <==> x in t
  {
    assert |s| == |multiset(s)| == |multiset(t)| == |t|;
    forall x ensures x in s <==> x in t {
      assert x in s <==> x in multiset(s);
      assert x in t <==> x in multiset(t);
    }
  }

  /** A sorted sequence is determined by its elements, so sorting forgets the input order. */
  lemma {:induction false} SortedUnique<T(!new)>(le: (T, T) -> bool, s: seq<T>, t: seq<T>)
    requires TotalPreorder(le) && AntisymmetricOn(le, s)
    requires SortedBy(le, s) && SortedBy(le, t) && multiset(s) == multiset(t)
    ensures s == t
  {
    SameMembers(s, t);
    if s != [] {
      HeadLeast(le, s, t[0]);
      HeadLeast(le, t, s[0]);
      assert s[0] == t[0];
      assert AntisymmetricOn(le, t);
      TailSorted(le, s);
      TailSorted(le, t);
      SortedUnique(le, s[1..], t[1..]);
    }
  }

  lemma SortPermuted<T(!new)>(le: (T, T) -> bool, s: seq<T>, t: seq<T>)
    requires TotalPreorder(le) && AntisymmetricOn(le, s) && multiset(s) == multiset(t)
    ensures Sort(le, s) == Sort(le, t)
  {
    SortSorted(le, s);
    SortSorted(le, t);
    SortPermutes(le, s);
    SortPermutes(le, t);
    SameMembers(Sort(le, s), s);
    SortedUnique(le, Sort(le, s), Sort(le, t));
  }

  function Filter<T>(keep: T -> bool, s: seq<T>): seq<T> {
    if s == [] then [] else Filter(keep, s[..|s| - 1]) + (if keep(s[|s| - 1]) then [s[|s| - 1]] else [])
  }

  lemma {:induction false} FilterMember<T>(keep: T -> bool, s: seq<T>, x: T)
    ensures x in Filter(keep, s) <==> x in s && keep(x)
  {
    if s != [] {
      FilterMember(keep, s[..|s| - 1], x);
      assert s == s[..|s| - 1] + [s[|s| - 1]];
    }
  }

  lemma FilterSnoc<T>(keep: T -> bool, s: seq<T>, x: T)
    ensures Filter(keep, s + [x]) == Filter(keep, s) + (if keep(x) then [x] else [])
    ensures !keep(x) ==> Filter(keep, s + [x]) == Filter(keep, s)
  {
    assert (s + [x])[..|s|] == s;
  }

  lemma {:induction false} FilterConcat<T>(keep: T -> bool, s: seq<T>, t: seq<T>)
    ensures Filter(keep, s + t) == Filter(keep, s) + Filter(keep, t)
  {
    if t == [] {
      assert s + t == s;
    } else {
      assert (s + t)[..|s + t| - 1] == s + t[..|t| - 1];
      FilterConcat(keep, s, t[..|t| - 1]);
    }
  }

  /** A selection of all elements, or of none. */
  lemma {:induction false} FilterAll<T>(keep: T -> bool, s: seq<T>)
    ensures (forall x :: x in s ==> keep(x)) ==> Filter(keep, s) == s
    ensures (forall x :: x in s ==> !keep(x)) ==> Filter(keep, s) == []
  {
    if s != [] {
      var init, last := s[..|s| - 1], s[|s| - 1];
      assert s == init + [last] && last in s;
      assert forall x :: x in init ==> x in s;
      FilterAll(keep, init);
    }
  }

  lemma {:induction false} FilterShorter<T>(keep: T -> bool, s: seq<T>)
    ensures |Filter(keep, s)| <= |s|
  {
    if s != [] {
      FilterShorter(keep, s[..|s| - 1]);
    }
  }

  lemma {:induction false} NoneKept<T>(keep: T -> bool, s: seq<T>)
    requires forall i :: 0 <= i < |s| ==> !keep(s[i])
    ensures Filter(keep, s) == []
  {
    if s != [] {
      NoneKept(keep, s[..|s| - 1]);
    }
  }

  /** A selection that keeps exactly the elements from `p` on is a suffix. */
  lemma FilterSuffix<T>(keep: T -> bool, s: seq<T>, p: nat)
    requires p <= |s| && forall i :: 0 <= i < |s| ==> (keep(s[i]) <==> p <= i)
    ensures Filter(keep, s) == s[p..]
  {
    assert s == s[..p] + s[p..];
    FilterConcat(keep, s[..p], s[p..]);
    FilterAll(keep, s[..p]);
    FilterAll(keep, s[p..]);
  }

  lemma {:induction false} InsertLast<T>(le: (T, T) -> bool, s: seq<T>, x: T)
    requires s != [] ==> le(s[|s| - 1], x)
    ensures Insert(le, s, x) == s + [x]
  {
  }

  /** What is not after `x` comes before what is. */
  ghost predicate SplitBy<T>(le: (T, T) -> bool, s: seq<T>, x: T) {
    forall i, j :: 0 <= i < j < |s| && le(s[j], x) ==> le(s[i], x)
  }

  lemma {:induction false} FilterInsert<T>(le: (T, T) -> bool, keep: T -> bool, s: seq<T>, x: T)
    requires SplitBy(le, s, x)
    ensures Filter(keep, Insert(le, s, x)) == if keep(x) then Insert(le, Filter(keep, s), x) else Filter(keep, s)
  {
    if s == [] {
      FilterSnoc(keep, [], x);
      assert [] + [x] == [x];
    } else {
      var init, last := s[..|s| - 1], s[|s| - 1];
      if le(last, x) {
        FilterSnoc(keep, s, x);
        KeptBefore(le, keep, s, x);
      } else {
        FilterInsert(le, keep, init, x);
        FilterSnoc(keep, Insert(le, init, x), last);
        assert !keep(last) ==> Filter(keep, s) == Filter(keep, init);
        assert !keep(last) ==> Filter(keep, Insert(le, s, x)) == Filter(keep, Insert(le, init, x));
      }
    }
  }

  lemma KeptBefore<T>(le: (T, T) -> bool, keep: T -> bool, s: seq<T>, x: T)
    requires SplitBy(le, s, x) && s != [] && le(s[|s| - 1], x)
    ensures Insert(le, Filter(keep, s), x) == Filter(keep, s) + [x]
  {
    var kept := Filter(keep, s);
    if kept != [] {
      FilterMember(keep, s, kept[|kept| - 1]);
      assert le(kept[|kept| - 1], x);
    }
    InsertLast(le, kept, x);
  }

  /** The sort is stable: sorting commutes with any selection of rows. */
  lemma {:induction false} FilterSort<T(!new)>(le: (T, T) -> bool, keep: T -> bool, s: seq<T>)
    requires TotalPreorder(le)
    ensures Filter(keep, Sort(le, s)) == Sort(le, Filter(keep, s))
  {
    if s != [] {
      var init, last := s[..|s| - 1], s[|s| - 1];
      FilterSort(le, keep, init);
      SortSorted(le, init);
      FilterInsert(le, keep, Sort(le, init), last);
      if keep(last) {
        SortSnoc(le, Filter(keep, init), last);
      } else {
        assert Filter(keep, s) == Filter(keep, init);
      }
    }
  }

  lemma SortSnoc<T>(le: (T, T) -> bool, s: seq<T>, x: T)
    ensures Sort(le, s + [x]) == Insert(le, Sort(le, s), x)
  {
    assert (s + [x])[..|s|] == s;
  }

  lemma {:induction false} FilterCount<T>(keep: T -> bool, s: seq<T>, x: T)
    ensures multiset(Filter(keep, s))[x] == if keep(x) then multiset(s)[x] else 0
  {
    if s != [] {
      var init := s[..|s| - 1];
      FilterCount(keep, init, x);
      assert s == init + [s[|s| - 1]];
    }
  }

  /** A selection of a permutation is a permutation of the selection. */
  lemma FilterPermuted<T(!new)>(keep: T -> bool, s: seq<T>, t: seq<T>)
    requires multiset(s) == multiset(t)
    ensures multiset(Filter(keep, s)) == multiset(Filter(keep, t))
  {
    forall x ensures multiset(Filter(keep, s))[x] == multiset(Filter(keep, t))[x] {
      FilterCount(keep, s, x);
      FilterCount(keep, t, x);
    }
  }

  // ----- one function on every element -----

  function Map<A, B>(f: A -> B, s: seq<A>): (r: seq<B>)
    ensures |r| == |s|
  {
    if s == [] then [] else Map(f, s[..|s| - 1]) + [f(s[|s| - 1])]
  }

  lemma {:induction false} MapMembers<A, B>(f: A -> B, s: seq<A>, y: B)
    ensures y in Map(f, s) <==> exists x :: x in s && f(x) == y
  {
    if s != [] {
      var init, last := s[..|s| - 1], s[|s| - 1];
      MapMembers(f, init, y);
      assert s == init + [last];
      assert last in s;
    }
  }

  lemma {:induction false} MapConcat<A, B>(f: A -> B, s: seq<A>, t: seq<A>)
    ensures Map(f, s + t) == Map(f, s) + Map(f, t)
  {
    if t == [] {
      assert s + t == s;
    } else {
      assert (s + t)[..|s + t| - 1] == s + t[..|t| - 1];
      MapConcat(f, s, t[..|t| - 1]);
    }
  }

  lemma MapWithout<A, B>(f: A -> B, t: seq<A>, x: A) returns (rest: seq<A>)
    requires x in t
    ensures multiset(t) == multiset(rest) + multiset{x}
    ensures multiset(Map(f, t)) == multiset(Map(f, rest)) + multiset{f(x)}
  {
    var k :| 0 <= k < |t| && t[k] == x;
    var a, b := t[..k], t[k + 1..];
    rest := a + b;
    assert t == a + [x] + b;
    MapConcat(f, a + [x], b);
    MapConcat(f, a, b);
  }

  lemma {:induction false} MapPermuted<A, B>(f: A -> B, s: seq<A>, t: seq<A>)
    requires multiset(s) == multiset(t)
    ensures multiset(Map(f, s)) == multiset(Map(f, t))
    decreases |s|
  {
    SameMembers(s, t);
    if s != [] {
      var init, x := s[..|s| - 1], s[|s| - 1];
      assert s == init + [x];
      assert x in s && x in t;
      var rest := MapWithout(f, t, x);
      assert multiset(init) == multiset(s) - multiset{x};
      MapPermuted(f, init, rest);
    }
  }

  // ----- sequences without repetition -----

  ghost predicate NoDuplicates<T>(s: seq<T>) {
    forall i, j :: 0 <= i < j < |s| ==> s[i] != s[j]
  }

  lemma {:induction false} CountAtMostOne<T>(s: seq<T>, x: T)
    ensures NoDuplicates(s) ==> multiset(s)[x] <= 1
    ensures multiset(s)[x] > 1 ==> exists i, j :: 0 <= i < j < |s| && s[i] == s[j] == x
  {
    if s != [] {
      var init, last := s[..|s| - 1], s[|s| - 1];
      assert s == init + [last];
      CountAtMostOne(init, x);
      if multiset(s)[x] > 1 && x == last {
        assert x in multiset(init);
        var i :| 0 <= i < |init| && init[i] == x;
        assert s[i] == s[|init|] == x;
      }
    }
  }

  lemma {:induction false} DuplicateCount<T>(s: seq<T>, i: nat, j: nat)
    requires i < j < |s| && s[i] == s[j]
    ensures multiset(s)[s[i]] > 1
  {
    assert s == s[..j] + [s[j]] + s[j + 1..];
    assert s[i] in s[..j];
    assert multiset(s) == multiset(s[..j]) + multiset{s[j]} + multiset(s[j + 1..]);
  }

  lemma PermutationKeepsDistinct<T>(s: seq<T>, t: seq<T>)
    requires multiset(s) == multiset(t) && NoDuplicates(s)
    ensures NoDuplicates(t)
  {
    forall i, j | 0 <= i < j < |t| ensures t[i] != t[j] {
      CountAtMostOne(s, t[i]);
      if t[i] == t[j] {
        DuplicateCount(t, i, j);
      }
    }
  }

  /** A set in insertion order. */
  function Distinct<T(==)>(s: seq<T>): seq<T> {
    if s == [] then []
    else
      var kept := Distinct(s[..|s| - 1]);
      if s[|s| - 1] in kept then kept else kept + [s[|s| - 1]]
  }

  lemma {:induction false} DistinctMembers<T>(s: seq<T>)
    ensures forall x :: x in Distinct(s) <==> x in s
    ensures NoDuplicates(Distinct(s))
  {
    if s != [] {
      DistinctMembers(s[..|s| - 1]);
      assert s == s[..|s| - 1] + [s[|s| - 1]];
    }
  }

  lemma {:induction false} SubsetSize<T>(a: set<T>, b: set<T>)
    requires a <= b
    ensures |a| <= |b|
  {
    if a != {} {
      var x :| x in a;
      SubsetSize(a - {x}, b - {x});
    }
  }

  // ----- strings, compared code unit by code unit as `<` and the default sort do -----

  predicate StringLe(a: string, b: string) {
    a == [] || (b != [] && (a[0] < b[0] || (a[0] == b[0] && StringLe(a[1..], b[1..]))))
  }

  lemma {:induction false} StringLeTotal(a: string, b: string)
    ensures StringLe(a, b) || StringLe(b, a)
    ensures StringLe(a, b) && StringLe(b, a) ==> a == b
  {
    if a != [] && b != [] && a[0] == b[0] {
      StringLeTotal(a[1..], b[1..]);
      assert a == [a[0]] + a[1..] && b == [b[0]] + b[1..];
    }
  }

  lemma {:induction false} StringLeTransitive(a: string, b: string, c: string)
    requires StringLe(a, b) && StringLe(b, c)
    ensures StringLe(a, c)
  {
    if a != [] && a[0] == b[0] == c[0] {
      StringLeTransitive(a[1..], b[1..], c[1..]);
    }
  }

  lemma StringOrder(s: seq<string>)
    ensures TotalPreorder(StringLe) && AntisymmetricOn(StringLe, s)
  {
    forall x, y ensures StringLe(x, y) || StringLe(y, x) {
      StringLeTotal(x, y);
    }
    forall x, y, z | StringLe(x, y) && StringLe(y, z) ensures StringLe(x, z) {
      StringLeTransitive(x, y, z);
    }
    forall x, y | x in s && y in s && StringLe(x, y) && StringLe(y, x) ensures x == y {
      StringLeTotal(x, y);
    }
  }

  /** Dictionary order: `a` ends where `b` goes on, or has the smaller character where they first differ. */
  ghost predicate Precedes(a: string, b: string) { exists n: nat :: PrecedesAt(a, b, n) }

  ghost predicate PrecedesAt(a: string, b: string, n: nat) {
    n <= |a| && n <= |b| && a[..n] == b[..n] && (n == |a| || (n < |b| && a[n] < b[n]))
  }

  lemma PrecedesTail(a: string, b: string, n: nat)
    requires a != [] && b != [] && a[0] == b[0]
    ensures PrecedesAt(a[1..], b[1..], n) <==> PrecedesAt(a, b, n + 1)
  {
    if n + 1 <= |a| && n + 1 <= |b| {
      assert a[..n + 1] == [a[0]] + a[1..][..n] && b[..n + 1] == [b[0]] + b[1..][..n];
      assert a[1..][..n] == a[..n + 1][1..] && b[1..][..n] == b[..n + 1][1..];
    }
  }

  lemma PrecedesHead(a: string, b: string, n: nat)
    requires PrecedesAt(a, b, n)
    ensures n == 0 || (a != [] && b != [] && a[0] == b[0])
  {
    if n > 0 {
      assert a[..n][0] == b[..n][0];
    }
  }

  lemma {:induction false} StringLeMeans(a: string, b: string)
    ensures StringLe(a, b) <==> Precedes(a, b)
  {
    assert PrecedesAt(a, b, 0) <==> a == [] || (b != [] && a[0] < b[0]);
    if a != [] && b != [] && a[0] == b[0] {
      StringLeMeans(a[1..], b[1..]);
      forall n: nat ensures PrecedesAt(a[1..], b[1..], n) <==> PrecedesAt(a, b, n + 1) {
        PrecedesTail(a, b, n);
      }
      if n: nat :| PrecedesAt(a, b, n) {
        assert PrecedesAt(a[1..], b[1..], n - 1);
      }
    } else if n: nat :| PrecedesAt(a, b, n) {
      PrecedesHead(a, b, n);
    }
  }
}
