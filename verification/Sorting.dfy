/** `sort.Slice`: the sorting the server asks for, with a caller-supplied strict order. */
module Sorting {

  /** A strict order in which any two values that are not equivalent are comparable. */
  ghost predicate Ordering<T(!new)>(less: (T, T) -> bool) {
    && (forall a, b :: less(a, b) ==> !less(b, a))
    && (forall a, b, c :: !less(b, a) && !less(c, b) ==> !less(c, a))
  }

  /** No later element is less than an earlier one. */
  ghost predicate InOrder<T>(s: seq<T>, less: (T, T) -> bool) {
    forall i, j | 0 <= i < j < |s| :: !less(s[j], s[i])
  }

  function Elements<T>(s: seq<T>): (r: set<T>) { set x | x in s }

  predicate NoRepeats<T(==)>(s: seq<T>) {
    forall i, j | 0 <= i < j < |s| :: s[i] != s[j]
  }

  lemma JoinedNoRepeats<T>(a: seq<T>, b: seq<T>)
    requires NoRepeats(a) && NoRepeats(b) && forall x | x in a :: x !in b
    ensures NoRepeats(a + b)
  {
    forall i, j | 0 <= i < j < |a + b| ensures (a + b)[i] != (a + b)[j] {
      if i < |a| <= j {
        assert a[i] in a && b[j - |a|] in b;
      }
    }
  }

  method SortSlice<T(!new)>(items: seq<T>, less: (T, T) -> bool) returns (sorted: seq<T>)
    requires Ordering(less)
    ensures multiset(sorted) == multiset(items)
    ensures InOrder(sorted, less)
  {
    sorted := [];
    for n := 0 to |items|
      invariant multiset(sorted) == multiset(items[..n])
      invariant InOrder(sorted, less)
    {
      assert items[..n + 1] == items[..n] + [items[n]];
      sorted := Insert(sorted, items[n], less);
    }
    assert items[..|items|] == items;
  }

  method Insert<T(!new)>(sorted: seq<T>, x: T, less: (T, T) -> bool) returns (longer: seq<T>)
    requires Ordering(less) && InOrder(sorted, less)
    ensures multiset(longer) == multiset(sorted) + multiset{x}
    ensures InOrder(longer, less)
  {
    var at := |sorted|;
    while at > 0 && less(x, sorted[at - 1])
      invariant 0 <= at <= |sorted|
      invariant forall i | at <= i < |sorted| :: less(x, sorted[i])
    {
      at := at - 1;
    }
    longer := sorted[..at] + [x] + sorted[at..];
    assert sorted == sorted[..at] + sorted[at..];
    InsertedInOrder(sorted, at, x, less);
  }

  lemma InsertedInOrder<T(!new)>(sorted: seq<T>, at: nat, x: T, less: (T, T) -> bool)
    requires Ordering(less) && InOrder(sorted, less) && at <= |sorted|
    requires at > 0 ==> !less(x, sorted[at - 1])
    requires forall i | at <= i < |sorted| :: less(x, sorted[i])
    ensures InOrder(sorted[..at] + [x] + sorted[at..], less)
  {
    forall i | 0 <= i < at ensures !less(x, sorted[i]) {
      if i < at - 1 {
        assert !less(sorted[at - 1], sorted[i]);
      }
    }
    var longer := sorted[..at] + [x] + sorted[at..];
    forall i, j | 0 <= i < j < |longer| ensures !less(longer[j], longer[i]) {
      var from := if i < at then i else i - 1;
      var to := if j < at then j else j - 1;
      if i == at {
        assert longer[i] == x && longer[j] == sorted[to];
      } else if j == at {
        assert longer[j] == x && longer[i] == sorted[from];
      } else {
        assert longer[i] == sorted[from] && longer[j] == sorted[to];
      }
    }
  }

  /** The same multiset has the same elements, length and repetitions. */
  lemma Permuted<T>(a: seq<T>, b: seq<T>)
    requires multiset(a) == multiset(b)
    ensures |a| == |b| && Elements(a) == Elements(b)
    ensures NoRepeats(b) ==> NoRepeats(a)
  {
    assert |multiset(a)| == |multiset(b)|;
    forall x ensures x in a <==> x in b {
      assert x in a <==> x in multiset(a);
      assert x in b <==> x in multiset(b);
    }
    if NoRepeats(b) {
      forall i, j | 0 <= i < j < |a| ensures a[i] != a[j] {
        if a[i] == a[j] {
          CountsTwice(a, i, j);
          OnceEach(b, a[i]);
        }
      }
    }
  }

  lemma CountsTwice<T>(s: seq<T>, i: nat, j: nat)
    requires i < j < |s| && s[i] == s[j]
    ensures multiset(s)[s[i]] >= 2
  {
    assert s == s[..j] + [s[j]] + s[j + 1..];
    assert s[..j][i] == s[i];
    assert s[i] in multiset(s[..j]);
  }

  lemma {:induction false} OnceEach<T>(s: seq<T>, x: T)
    requires NoRepeats(s)
    ensures multiset(s)[x] <= 1
  {
    if s != [] {
      var n := |s| - 1;
      OnceEach(s[..n], x);
      assert s == s[..n] + [s[n]];
      if x == s[n] {
        assert x !in s[..n];
        assert x !in multiset(s[..n]);
      }
    }
  }

  /** A sequence without repetitions is as long as its set of elements is large. */
  lemma {:induction false} CountDistinct<T>(s: seq<T>)
    requires NoRepeats(s)
    ensures |Elements(s)| == |s|
  {
    if s != [] {
      var n := |s| - 1;
      CountDistinct(s[..n]);
      assert Elements(s) == Elements(s[..n]) + {s[n]} by {
        assert s == s[..n] + [s[n]];
      }
      assert s[n] !in Elements(s[..n]);
    }
  }
}
