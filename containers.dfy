/**
 * What building a user container from the backend vector does
 * (`T{std::begin(from), std::end(from)}` in convertible_option_value,
 * raconfig/include/raconfig/raconfig_range.hpp:120-124) for the four set
 * kinds of raconfig_set.hpp and raconfig_unordered_set.hpp.
 *
 * A range constructor inserts the elements one after another. An ordered
 * container keeps its elements in comparator order: `std::set` ignores an
 * element it already holds, `std::multiset` keeps every copy. An unordered
 * container's iteration order depends on hashing, which is not modelled:
 * here `std::unordered_set` keeps first occurrences in arrival order and
 * `std::unordered_multiset` keeps the backend order; only membership and
 * counts are claimed for them.
 */
module Containers {
  import opened Values

  /** The position of `x` along the comparator: `cmp(a, b)` iff `Rank(a) < Rank(b)`. */
  function Rank(cmp: Order, x: int): int
  {
    match cmp
    case Less => x
    case Greater => -x
  }

  /** `cmp(a, b)` for `std::less<int>` or `std::greater<int>`. */
  predicate Before(cmp: Order, a: int, b: int)
  {
    Rank(cmp, a) < Rank(cmp, b)
  }

  /** Iteration order of a `std::set`: each element strictly before the next. */
  predicate StrictlySorted(cmp: Order, s: seq<int>)
  {
    forall i, j :: 0 <= i < j < |s| ==> Before(cmp, s[i], s[j])
  }

  /** Iteration order of a `std::multiset`: no element after a later one. */
  predicate Sorted(cmp: Order, s: seq<int>)
  {
    forall i, j :: 0 <= i < j < |s| ==> !Before(cmp, s[j], s[i])
  }

  predicate NoDuplicates(s: seq<int>)
  {
    forall i, j :: 0 <= i < j < |s| ==> s[i] != s[j]
  }

  function Elements(s: seq<int>): set<int>
  {
    set x | x in s
  }

  /**
   * Inserting `x` into an ordered container: a `unique` container (`std::set`)
   * leaves itself unchanged when it already holds `x`; a `std::multiset` puts
   * `x` after the elements equal to it.
   */
  function Insert(cmp: Order, unique: bool, s: seq<int>, x: int): seq<int>
  {
    if s == [] then [x]
    else if Before(cmp, x, s[0]) then [x] + s
    else if unique && x == s[0] then s
    else [s[0]] + Insert(cmp, unique, s[1..], x)
  }

  /** `T{first, last}` for an ordered T: insert the backend elements in order. */
  function BuildOrdered(cmp: Order, unique: bool, v: seq<int>): seq<int>
  {
    if v == [] then [] else Insert(cmp, unique, BuildOrdered(cmp, unique, v[..|v| - 1]), v[|v| - 1])
  }

  /** `std::unordered_set{first, last}`: a repeated element is not inserted again. */
  function Dedup(v: seq<int>): seq<int>
  {
    if v == [] then []
    else
      var p := Dedup(v[..|v| - 1]);
      if v[|v| - 1] in p then p else p + [v[|v| - 1]]
  }

  lemma ConsStrictlySorted(cmp: Order, y: int, s: seq<int>)
    ensures StrictlySorted(cmp, [y] + s) <==>
              (forall z :: z in s ==> Before(cmp, y, z)) && StrictlySorted(cmp, s)
  {
    var r := [y] + s;
    if (forall z :: z in s ==> Before(cmp, y, z)) && StrictlySorted(cmp, s) {
      forall i, j | 0 <= i < j < |r| ensures Before(cmp, r[i], r[j]) {
        assert r[j] == s[j - 1];
        if i > 0 { assert r[i] == s[i - 1]; }
      }
    }
    if StrictlySorted(cmp, r) {
      forall i, j | 0 <= i < j < |s| ensures Before(cmp, s[i], s[j]) {
        assert s[i] == r[i + 1] && s[j] == r[j + 1];
      }
      forall z | z in s ensures Before(cmp, y, z) {
        var k :| 0 <= k < |s| && s[k] == z;
        assert r[0] == y && r[k + 1] == z;
        assert Before(cmp, r[0], r[k + 1]);
      }
    }
  }

  lemma ConsSorted(cmp: Order, y: int, s: seq<int>)
    ensures Sorted(cmp, [y] + s) <==>
              (forall z :: z in s ==> !Before(cmp, z, y)) && Sorted(cmp, s)
  {
    var r := [y] + s;
    if (forall z :: z in s ==> !Before(cmp, z, y)) && Sorted(cmp, s) {
      forall i, j | 0 <= i < j < |r| ensures !Before(cmp, r[j], r[i]) {
        assert r[j] == s[j - 1];
        if i > 0 { assert r[i] == s[i - 1]; }
      }
    }
    if Sorted(cmp, r) {
      forall i, j | 0 <= i < j < |s| ensures !Before(cmp, s[j], s[i]) {
        assert s[i] == r[i + 1] && s[j] == r[j + 1];
      }
      forall z | z in s ensures !Before(cmp, z, y) {
        var k :| 0 <= k < |s| && s[k] == z;
        assert r[0] == y && r[k + 1] == z;
        assert !Before(cmp, r[k + 1], r[0]);
      }
    }
  }

  lemma {:induction false} InsertMembers(cmp: Order, unique: bool, s: seq<int>, x: int)
    ensures forall z :: z in Insert(cmp, unique, s, x) <==> z in s || z == x
    decreases |s|
  {
    if s != [] && !Before(cmp, x, s[0]) && !(unique && x == s[0]) {
      InsertMembers(cmp, unique, s[1..], x);
      assert s == [s[0]] + s[1..];
    }
  }

  lemma {:induction false} InsertIntoSet(cmp: Order, s: seq<int>, x: int)
    requires StrictlySorted(cmp, s)
    ensures StrictlySorted(cmp, Insert(cmp, true, s, x))
    ensures Elements(Insert(cmp, true, s, x)) == Elements(s) + {x}
    decreases |s|
  {
    InsertMembers(cmp, true, s, x);
    if s != [] {
      var t := s[1..];
      assert s == [s[0]] + t;
      ConsStrictlySorted(cmp, s[0], t);
      if Before(cmp, x, s[0]) {
        ConsStrictlySorted(cmp, x, s);
      } else if x != s[0] {
        InsertIntoSet(cmp, t, x);
        var rest := Insert(cmp, true, t, x);
        InsertMembers(cmp, true, t, x);
        assert Before(cmp, s[0], x);
        ConsStrictlySorted(cmp, s[0], rest);
      }
    }
  }

  lemma {:induction false} InsertIntoMultiset(cmp: Order, s: seq<int>, x: int)
    requires Sorted(cmp, s)
    ensures Sorted(cmp, Insert(cmp, false, s, x))
    ensures multiset(Insert(cmp, false, s, x)) == multiset(s) + multiset{x}
    decreases |s|
  {
    if s != [] {
      var t := s[1..];
      assert s == [s[0]] + t;
      ConsSorted(cmp, s[0], t);
      if Before(cmp, x, s[0]) {
        ConsSorted(cmp, x, s);
      } else {
        InsertIntoMultiset(cmp, t, x);
        var rest := Insert(cmp, false, t, x);
        assert forall z :: z in rest ==> z in multiset(rest);
        ConsSorted(cmp, s[0], rest);
      }
    }
  }

  /** A built `std::set` is in comparator order and holds exactly the backend's elements. */
  lemma {:induction false} BuildSetProperties(cmp: Order, v: seq<int>)
    ensures StrictlySorted(cmp, BuildOrdered(cmp, true, v))
    ensures Elements(BuildOrdered(cmp, true, v)) == Elements(v)
    decreases |v|
  {
    if v != [] {
      var p, x := v[..|v| - 1], v[|v| - 1];
      BuildSetProperties(cmp, p);
      InsertIntoSet(cmp, BuildOrdered(cmp, true, p), x);
      assert v == p + [x];
      assert Elements(v) == Elements(p) + {x};
    }
  }

  /** A built `std::multiset` is in comparator order and keeps every backend element. */
  lemma {:induction false} BuildMultisetProperties(cmp: Order, v: seq<int>)
    ensures Sorted(cmp, BuildOrdered(cmp, false, v))
    ensures multiset(BuildOrdered(cmp, false, v)) == multiset(v)
    decreases |v|
  {
    if v != [] {
      var p, x := v[..|v| - 1], v[|v| - 1];
      BuildMultisetProperties(cmp, p);
      InsertIntoMultiset(cmp, BuildOrdered(cmp, false, p), x);
      assert v == p + [x];
    }
  }

  /** Two strictly sorted sequences with the same elements are equal. */
  lemma {:induction false} StrictlySortedUnique(cmp: Order, a: seq<int>, b: seq<int>)
    requires StrictlySorted(cmp, a) && StrictlySorted(cmp, b)
    requires Elements(a) == Elements(b)
    ensures a == b
    decreases |a|
  {
    if a == [] {
      assert forall i :: 0 <= i < |b| ==> b[i] in Elements(b);
    } else {
      assert a[0] in Elements(a);
      assert b != [];
      var ta, tb := a[1..], b[1..];
      assert a == [a[0]] + ta && b == [b[0]] + tb;
      ConsStrictlySorted(cmp, a[0], ta);
      ConsStrictlySorted(cmp, b[0], tb);
      assert b[0] in Elements(b);
      assert a[0] in b && b[0] in a;
      assert a[0] == b[0];
      assert Elements(a) == {a[0]} + Elements(ta);
      assert Elements(b) == {b[0]} + Elements(tb);
      assert a[0] !in Elements(ta) && b[0] !in Elements(tb);
      assert Elements(ta) == Elements(tb);
      StrictlySortedUnique(cmp, ta, tb);
    }
  }

  /** Two sorted sequences with the same multiset of elements are equal. */
  lemma {:induction false} SortedUnique(cmp: Order, a: seq<int>, b: seq<int>)
    requires Sorted(cmp, a) && Sorted(cmp, b)
    requires multiset(a) == multiset(b)
    ensures a == b
    decreases |a|
  {
    if a == [] {
      assert |multiset(b)| == 0;
    } else {
      assert |b| == |multiset(b)| == |multiset(a)| == |a|;
      SortedHeadsAgree(cmp, a, b);
      var ta, tb := a[1..], b[1..];
      assert a == [a[0]] + ta && b == [b[0]] + tb;
      ConsCancel(a[0], ta, tb);
      ConsSorted(cmp, a[0], ta);
      ConsSorted(cmp, b[0], tb);
      SortedUnique(cmp, ta, tb);
    }
  }

  lemma SortedHeadsAgree(cmp: Order, a: seq<int>, b: seq<int>)
    requires Sorted(cmp, a) && Sorted(cmp, b) && a != [] && b != []
    requires multiset(a) == multiset(b)
    ensures a[0] == b[0]
  {
    SortedHead(cmp, a, b[0]);
    SortedHead(cmp, b, a[0]);
    assert a[0] in multiset(a) && b[0] in multiset(b);
  }

  lemma ConsCancel(x: int, s: seq<int>, t: seq<int>)
    requires multiset([x] + s) == multiset([x] + t)
    ensures multiset(s) == multiset(t)
  {
    assert multiset([x] + s) == multiset{x} + multiset(s);
    assert multiset([x] + t) == multiset{x} + multiset(t);
    forall y ensures multiset(s)[y] == multiset(t)[y] {
      assert (multiset{x} + multiset(s))[y] == multiset{x}[y] + multiset(s)[y];
      assert (multiset{x} + multiset(t))[y] == multiset{x}[y] + multiset(t)[y];
    }
  }

  /** The head of a sorted sequence comes no later than any of its members. */
  lemma SortedHead(cmp: Order, s: seq<int>, z: int)
    requires Sorted(cmp, s) && s != []
    ensures z in multiset(s) ==> !Before(cmp, z, s[0])
  {
    if z in s {
      var k :| 0 <= k < |s| && s[k] == z;
      if k > 0 { assert !Before(cmp, s[k], s[0]); }
    }
  }

  /** A strictly sorted sequence has no duplicates. */
  lemma StrictlySortedHasNoDuplicates(cmp: Order, s: seq<int>)
    requires StrictlySorted(cmp, s)
    ensures NoDuplicates(s)
  {
    forall i, j | 0 <= i < j < |s| ensures s[i] != s[j] {
      assert Before(cmp, s[i], s[j]);
    }
  }

  /** In a sequence without duplicates each element occurs once, and it has as many elements as members. */
  lemma {:induction false} NoDuplicatesCounts(s: seq<int>)
    requires NoDuplicates(s)
    ensures forall x {:trigger multiset(s)[x]} :: multiset(s)[x] == if x in s then 1 else 0
    ensures |Elements(s)| == |s|
    decreases |s|
  {
    if s != [] {
      var t := s[1..];
      assert s == [s[0]] + t;
      assert NoDuplicates(t);
      NoDuplicatesCounts(t);
      assert s[0] !in t by {
        forall i | 0 <= i < |t| ensures t[i] != s[0] {
          assert t[i] == s[i + 1];
        }
      }
      assert Elements(s) == {s[0]} + Elements(t);
      assert s[0] !in Elements(t);
      forall x ensures multiset(s)[x] == if x in s then 1 else 0 {
        assert multiset(s) == multiset{s[0]} + multiset(t);
      }
    }
  }

  /**
   * A `std::set` built from the backend holds each distinct backend element
   * exactly once, so its size is the number of distinct elements.
   */
  lemma SetHoldsEachElementOnce(cmp: Order, v: seq<int>, x: int)
    ensures multiset(BuildOrdered(cmp, true, v))[x] == if x in v then 1 else 0
    ensures |BuildOrdered(cmp, true, v)| == |Elements(v)|
  {
    var r := BuildOrdered(cmp, true, v);
    BuildSetProperties(cmp, v);
    StrictlySortedHasNoDuplicates(cmp, r);
    NoDuplicatesCounts(r);
    assert x in r <==> x in Elements(r);
  }

  /** A `std::multiset` built from the backend counts each value as often as the backend holds it. */
  lemma MultisetKeepsCounts(cmp: Order, v: seq<int>, x: int)
    ensures multiset(BuildOrdered(cmp, false, v))[x] == multiset(v)[x]
    ensures |BuildOrdered(cmp, false, v)| == |v|
  {
    BuildMultisetProperties(cmp, v);
    assert |multiset(BuildOrdered(cmp, false, v))| == |multiset(v)|;
  }

  /** The set built does not depend on the order or repetition of the backend elements. */
  lemma SetIgnoresOrderAndRepetition(cmp: Order, v: seq<int>, w: seq<int>)
    requires Elements(v) == Elements(w)
    ensures BuildOrdered(cmp, true, v) == BuildOrdered(cmp, true, w)
  {
    BuildSetProperties(cmp, v);
    BuildSetProperties(cmp, w);
    StrictlySortedUnique(cmp, BuildOrdered(cmp, true, v), BuildOrdered(cmp, true, w));
  }

  /** The multiset built does not depend on the order of the backend elements. */
  lemma MultisetIgnoresOrder(cmp: Order, v: seq<int>, w: seq<int>)
    requires multiset(v) == multiset(w)
    ensures BuildOrdered(cmp, false, v) == BuildOrdered(cmp, false, w)
  {
    BuildMultisetProperties(cmp, v);
    BuildMultisetProperties(cmp, w);
    SortedUnique(cmp, BuildOrdered(cmp, false, v), BuildOrdered(cmp, false, w));
  }

  /** A `std::set` survives the trip through its backend vector unchanged. */
  lemma SetRoundTrip(cmp: Order, u: seq<int>)
    requires StrictlySorted(cmp, u)
    ensures BuildOrdered(cmp, true, u) == u
  {
    BuildSetProperties(cmp, u);
    StrictlySortedUnique(cmp, BuildOrdered(cmp, true, u), u);
  }

  /** A `std::multiset` survives the trip through its backend vector unchanged. */
  lemma MultisetRoundTrip(cmp: Order, u: seq<int>)
    requires Sorted(cmp, u)
    ensures BuildOrdered(cmp, false, u) == u
  {
    BuildMultisetProperties(cmp, u);
    SortedUnique(cmp, BuildOrdered(cmp, false, u), u);
  }

  /** A built `std::unordered_set` holds exactly the distinct backend elements. */
  lemma {:induction false} DedupProperties(v: seq<int>)
    ensures NoDuplicates(Dedup(v))
    ensures Elements(Dedup(v)) == Elements(v)
    decreases |v|
  {
    if v != [] {
      var p, x := v[..|v| - 1], v[|v| - 1];
      DedupProperties(p);
      assert v == p + [x];
      assert Elements(v) == Elements(p) + {x};
      var d := Dedup(p);
      if x !in d {
        var r := d + [x];
        forall i, j | 0 <= i < j < |r| ensures r[i] != r[j] {
          if j == |d| { assert r[i] == d[i]; } else { assert r[i] == d[i] && r[j] == d[j]; }
        }
        assert Elements(r) == Elements(d) + {x};
      } else {
        assert x in Elements(d);
      }
    }
  }

  /**
   * A `std::unordered_set` holds each distinct backend element exactly once;
   * its size is the number of distinct backend elements.
   */
  lemma UnorderedSetHoldsEachElementOnce(v: seq<int>, x: int)
    ensures multiset(Dedup(v))[x] == if x in v then 1 else 0
    ensures |Dedup(v)| == |Elements(v)|
  {
    DedupProperties(v);
    NoDuplicatesCounts(Dedup(v));
    assert x in Dedup(v) <==> x in Elements(Dedup(v));
  }

  /** An unordered set without duplicates survives the trip through its backend vector. */
  lemma {:induction false} DedupRoundTrip(u: seq<int>)
    requires NoDuplicates(u)
    ensures Dedup(u) == u
    decreases |u|
  {
    if u != [] {
      var p, x := u[..|u| - 1], u[|u| - 1];
      assert NoDuplicates(p);
      DedupRoundTrip(p);
      assert x !in p by {
        forall i | 0 <= i < |p| ensures p[i] != x {
          assert p[i] == u[i];
        }
      }
      assert u == p + [x];
    }
  }
}
