/** The contract of Go's `sort.SliceStable`, given as an insertion sort together with the
    facts its callers rely on: the result is ordered, has the same elements, keeps equal
    elements in their original order (stated as: sorting commutes with every filter), and,
    for a total order, does not depend on the order of its input. */
module StableSort {

  /** What Go demands of a `less` argument: a strict weak order. */
  ghost predicate StrictWeak<T(!new)>(less: (T, T) -> bool) {
    && (forall x, y :: less(x, y) ==> !less(y, x))
    && (forall x, y, z :: !less(x, y) && !less(y, z) ==> !less(x, z))
  }

  /** A strict weak order in which only equal elements are incomparable. */
  ghost predicate StrictTotal<T(!new)>(less: (T, T) -> bool) {
    && StrictWeak(less)
    && forall x, y :: !less(x, y) && !less(y, x) ==> x == y
  }

  ghost predicate Sorted<T>(less: (T, T) -> bool, xs: seq<T>) {
    forall i, j :: 0 <= i < j < |xs| ==> !less(xs[j], xs[i])
  }

  function Insert<T>(less: (T, T) -> bool, x: T, xs: seq<T>): (r: seq<T>)
    ensures multiset(r) == multiset(xs) + multiset{x}
  {
    if xs == [] then [x]
    else if less(xs[0], x) then
      assert xs == [xs[0]] + xs[1..];
      [xs[0]] + Insert(less, x, xs[1..])
    else [x] + xs
  }

  function Sort<T>(less: (T, T) -> bool, xs: seq<T>): (r: seq<T>)
    ensures multiset(r) == multiset(xs)
  {
    if xs == [] then []
    else
      assert xs == [xs[0]] + xs[1..];
      Insert(less, xs[0], Sort(less, xs[1..]))
  }

  function Filter<T>(keep: T -> bool, xs: seq<T>): seq<T> {
    if xs == [] then []
    else if keep(xs[0]) then [xs[0]] + Filter(keep, xs[1..])
    else Filter(keep, xs[1..])
  }

  lemma {:induction false} FilterMembers<T>(keep: T -> bool, xs: seq<T>, x: T)
    ensures x in Filter(keep, xs) <==> x in xs && keep(x)
  {
    if xs != [] {
      FilterMembers(keep, xs[1..], x);
      assert x in xs <==> x == xs[0] || x in xs[1..];
    }
  }

  lemma {:induction false} FilterCons<T>(keep: T -> bool, x: T, xs: seq<T>)
    ensures Filter(keep, [x] + xs) == if keep(x) then [x] + Filter(keep, xs) else Filter(keep, xs)
  {
    assert ([x] + xs)[1..] == xs;
  }

  lemma {:induction false} InsertSorted<T(!new)>(less: (T, T) -> bool, x: T, xs: seq<T>)
    requires StrictWeak(less) && Sorted(less, xs)
    ensures Sorted(less, Insert(less, x, xs))
  {
    if xs != [] && less(xs[0], x) {
      var rest := Insert(less, x, xs[1..]);
      InsertSorted(less, x, xs[1..]);
      forall j | 0 <= j < |rest| ensures !less(rest[j], xs[0]) {
        assert rest[j] in multiset(rest);
        assert rest[j] == x || rest[j] in xs[1..];
      }
    }
  }

  lemma {:induction false} SortSorted<T(!new)>(less: (T, T) -> bool, xs: seq<T>)
    requires StrictWeak(less)
    ensures Sorted(less, Sort(less, xs))
  {
    if xs != [] {
      SortSorted(less, xs[1..]);
      InsertSorted(less, xs[0], Sort(less, xs[1..]));
    }
  }

  /** The sort moves elements and neither invents nor drops one. */
  lemma {:induction false} SortMembers<T(!new)>(less: (T, T) -> bool, xs: seq<T>)
    ensures |Sort(less, xs)| == |xs|
    ensures forall x :: x in Sort(less, xs) <==> x in xs
  {
    assert |multiset(Sort(less, xs))| == |multiset(xs)|;
    forall x ensures x in Sort(less, xs) <==> x in xs {
      assert x in multiset(Sort(less, xs)) <==> x in multiset(xs);
    }
  }

  /** The head of the sorted list precedes or ties with every element of the input. */
  lemma {:induction false} SortHead<T(!new)>(less: (T, T) -> bool, xs: seq<T>)
    requires StrictWeak(less) && xs != []
    ensures |Sort(less, xs)| == |xs| && Sort(less, xs)[0] in xs
    ensures forall x :: x in xs ==> !less(x, Sort(less, xs)[0])
  {
    SortMembers(less, xs);
    SortSorted(less, xs);
    var s := Sort(less, xs);
    assert s[0] in s;
    forall x | x in xs ensures !less(x, s[0]) {
      assert x in s;
    }
  }

  lemma {:induction false} InsertAtFront<T>(less: (T, T) -> bool, x: T, xs: seq<T>)
    requires forall y :: y in xs ==> !less(y, x)
    ensures Insert(less, x, xs) == [x] + xs
  {
    assert xs != [] ==> xs[0] in xs;
  }

  lemma {:induction false} InsertPastHead<T>(less: (T, T) -> bool, x: T, y: T, xs: seq<T>)
    requires less(y, x)
    ensures Insert(less, x, [y] + xs) == [y] + Insert(less, x, xs)
  {
    assert ([y] + xs)[1..] == xs;
  }

  lemma {:induction false} InsertFiltered<T(!new)>(less: (T, T) -> bool, keep: T -> bool, x: T, xs: seq<T>)
    requires StrictWeak(less) && Sorted(less, xs)
    ensures Filter(keep, Insert(less, x, xs))
         == if keep(x) then Insert(less, x, Filter(keep, xs)) else Filter(keep, xs)
  {
    if xs == [] {
      FilterCons(keep, x, []);
    } else if less(xs[0], x) {
      InsertFiltered(less, keep, x, xs[1..]);
      FilterCons(keep, xs[0], Insert(less, x, xs[1..]));
      InsertPastHead(less, x, xs[0], Filter(keep, xs[1..]));
    } else {
      FilterCons(keep, x, xs);
      forall y | y in Filter(keep, xs) ensures !less(y, x) {
        FilterMembers(keep, xs, y);
      }
      InsertAtFront(less, x, Filter(keep, xs));
    }
  }

  /** Stability: sorting and then dropping elements gives what dropping them first gives. */
  lemma {:induction false} SortFilterCommute<T(!new)>(less: (T, T) -> bool, keep: T -> bool, xs: seq<T>)
    requires StrictWeak(less)
    ensures Filter(keep, Sort(less, xs)) == Sort(less, Filter(keep, xs))
  {
    if xs != [] {
      SortFilterCommute(less, keep, xs[1..]);
      SortSorted(less, xs[1..]);
      InsertFiltered(less, keep, xs[0], Sort(less, xs[1..]));
      SortCons(less, xs[0], Filter(keep, xs[1..]));
    }
  }

  lemma {:induction false} SortCons<T>(less: (T, T) -> bool, x: T, xs: seq<T>)
    ensures Sort(less, [x] + xs) == Insert(less, x, Sort(less, xs))
  {
    assert ([x] + xs)[1..] == xs;
  }

  /** Two sorted lists with the same elements start alike. */
  lemma {:induction false} SortedHeadsAgree<T(!new)>(less: (T, T) -> bool, xs: seq<T>, ys: seq<T>)
    requires StrictTotal(less) && Sorted(less, xs) && Sorted(less, ys)
    requires xs != [] && ys != [] && xs[0] in ys && ys[0] in xs
    ensures xs[0] == ys[0]
  {
    var i :| 0 <= i < |ys| && ys[i] == xs[0];
    var j :| 0 <= j < |xs| && xs[j] == ys[0];
    assert !less(ys[i], ys[0]) || i == 0;
    assert !less(xs[j], xs[0]) || j == 0;
  }

  lemma {:induction false} TailsAgree<T>(xs: seq<T>, ys: seq<T>)
    requires multiset(xs) == multiset(ys) && xs != [] && ys != [] && xs[0] == ys[0]
    ensures multiset(xs[1..]) == multiset(ys[1..])
  {
    assert xs == [xs[0]] + xs[1..] && ys == [ys[0]] + ys[1..];
    assert multiset(xs[1..]) == multiset(xs) - multiset{xs[0]};
  }

  lemma {:induction false} SortedTail<T>(less: (T, T) -> bool, xs: seq<T>)
    requires Sorted(less, xs) && xs != []
    ensures Sorted(less, xs[1..])
  {
  }

  lemma {:induction false} SameElementsSameHeads<T>(xs: seq<T>, ys: seq<T>)
    requires multiset(xs) == multiset(ys) && xs != []
    ensures ys != [] && xs[0] in ys && ys[0] in xs
  {
    assert xs[0] in multiset(ys);
    assert ys[0] in multiset(xs);
  }

  /** Under a total order there is only one sorted arrangement of given elements. */
  lemma {:induction false} SortedUnique<T(!new)>(less: (T, T) -> bool, xs: seq<T>, ys: seq<T>)
    requires StrictTotal(less) && Sorted(less, xs) && Sorted(less, ys)
    requires multiset(xs) == multiset(ys)
    ensures xs == ys
  {
    if xs == [] {
      assert |multiset(ys)| == 0;
    } else {
      SameElementsSameHeads(xs, ys);
      SortedHeadsAgree(less, xs, ys);
      TailsAgree(xs, ys);
      SortedTail(less, xs);
      SortedTail(less, ys);
      SortedUnique(less, xs[1..], ys[1..]);
      assert xs == [xs[0]] + xs[1..] && ys == [ys[0]] + ys[1..];
    }
  }

  lemma {:induction false} SortOrderIrrelevant<T(!new)>(less: (T, T) -> bool, xs: seq<T>, ys: seq<T>)
    requires StrictTotal(less) && multiset(xs) == multiset(ys)
    ensures Sort(less, xs) == Sort(less, ys)
  {
    SortSorted(less, xs);
    SortSorted(less, ys);
    SortedUnique(less, Sort(less, xs), Sort(less, ys));
  }

  /** Stability at the head: it is the first among the elements that nothing precedes. */
  lemma {:induction false} SortHeadIsFirst<T(!new)>(less: (T, T) -> bool, xs: seq<T>) returns (k: nat)
    requires StrictWeak(less) && xs != []
    ensures k < |xs| && |Sort(less, xs)| == |xs| && Sort(less, xs)[0] == xs[k]
    ensures forall j :: 0 <= j < |xs| ==> !less(xs[j], xs[k])
    ensures forall j :: 0 <= j < k ==> less(xs[k], xs[j])
  {
    SortMembers(less, xs);
    SortHead(less, xs);
    k := 0;
    if |xs| > 1 {
      SortMembers(less, xs[1..]);
      var i := SortHeadIsFirst(less, xs[1..]);
      if less(xs[1..][i], xs[0]) {
        k := i + 1;
        forall j | 0 <= j < k ensures less(xs[k], xs[j]) {
          if j > 0 {
            assert xs[j] == xs[1..][j - 1];
          }
        }
      }
    }
    forall j | 0 <= j < |xs| ensures !less(xs[j], xs[k]) {
      assert xs[j] in xs;
    }
  }

  lemma {:induction false} FilterAppend<T>(keep: T -> bool, xs: seq<T>, ys: seq<T>)
    ensures Filter(keep, xs + ys) == Filter(keep, xs) + Filter(keep, ys)
  {
    if xs == [] {
      assert xs + ys == ys;
    } else {
      FilterAppend(keep, xs[1..], ys);
      assert (xs + ys)[1..] == xs[1..] + ys;
    }
  }

  lemma {:induction false} FilterAll<T>(keep: T -> bool, xs: seq<T>)
    requires forall i :: 0 <= i < |xs| ==> keep(xs[i])
    ensures Filter(keep, xs) == xs
  {
    if xs != [] {
      FilterAll(keep, xs[1..]);
    }
  }

  /** Elements that nothing tells apart stay in their original order. */
  lemma {:induction false} SortTies<T(!new)>(less: (T, T) -> bool, xs: seq<T>)
    requires forall i, j :: 0 <= i < |xs| && 0 <= j < |xs| ==> !less(xs[i], xs[j])
    ensures Sort(less, xs) == xs
  {
    if xs != [] {
      SortTies(less, xs[1..]);
      forall y | y in xs[1..] ensures !less(y, xs[0]) {
        var j :| 0 <= j < |xs[1..]| && xs[1..][j] == y;
        assert y == xs[j + 1];
      }
      InsertAtFront(less, xs[0], xs[1..]);
    }
  }

  /** A filter and its complement share out the elements. */
  lemma {:induction false} FilterPartition<T>(keep: T -> bool, drop: T -> bool, xs: seq<T>)
    requires forall i :: 0 <= i < |xs| ==> keep(xs[i]) != drop(xs[i])
    ensures multiset(Filter(keep, xs)) + multiset(Filter(drop, xs)) == multiset(xs)
  {
    if xs != [] {
      FilterPartition(keep, drop, xs[1..]);
      assert xs == [xs[0]] + xs[1..];
    }
  }
}
