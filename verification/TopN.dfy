/** Ranking by an unstable descending sort and truncation. */
module TopN {
  import opened Net

  ghost predicate SortedDown<T>(s: seq<T>, rank: T -> nat) {
    forall i, j :: 0 <= i < j < |s| ==> rank(s[i]) >= rank(s[j])
  }

  /** `sorted` is one of the possible results of an unstable descending sort of `s`. */
  ghost predicate IsSorting<T>(s: seq<T>, sorted: seq<T>, rank: T -> nat) {
    multiset(s) == multiset(sorted) && SortedDown(sorted, rank)
  }

  ghost predicate NoDup<T>(s: seq<T>) {
    forall i, j :: 0 <= i < j < |s| ==> s[i] != s[j]
  }

  function Truncate<T>(s: seq<T>, n: nat): seq<T> {
    s[..Min(n, |s|)]
  }

  ghost function Elems<T>(s: seq<T>): set<T> {
    set x | x in s
  }

  /** `s` lists `rows` in some order, each once. */
  ghost predicate Listing<T>(s: seq<T>, rows: set<T>) {
    NoDup(s) && Elems(s) == rows
  }

  /** `list` holds `n` of the distinct `rows`, or all of them if there are no more. */
  ghost predicate Drawn<T>(list: seq<T>, rows: set<T>, n: nat) {
    |list| == Min(n, |rows|) && NoDup(list) && Elems(list) <= rows
  }

  /** `top` holds the `n` highest of the distinct `rows`, highest first, ties broken in any way. */
  ghost predicate IsTopN<T>(top: seq<T>, rows: set<T>, n: nat, rank: T -> nat) {
    && Drawn(top, rows, n)
    && SortedDown(top, rank)
    && (forall x, y :: x in top && y in rows && y !in top ==> rank(y) <= rank(x))
  }

  // ----- One sort that the standard library could use -----

  lemma ConsSorted<T>(x: T, s: seq<T>, rank: T -> nat)
    requires SortedDown(s, rank)
    requires forall y :: y in multiset(s) ==> rank(y) <= rank(x)
    ensures SortedDown([x] + s, rank)
  {
    forall j | 0 <= j < |s| ensures rank(s[j]) <= rank(x) {
      assert s[j] in multiset(s);
    }
  }

  lemma InsertBelow<T>(x: T, s: seq<T>, rest: seq<T>, rank: T -> nat)
    requires s != [] && SortedDown(s, rank) && rank(x) < rank(s[0])
    requires IsSorting([x] + s[1..], rest, rank)
    ensures IsSorting([x] + s, [s[0]] + rest, rank)
  {
    assert s == [s[0]] + s[1..];
    assert multiset(rest) == multiset{x} + multiset(s[1..]);
    ConsSorted(s[0], rest, rank);
  }

  function InsertDown<T>(x: T, s: seq<T>, rank: T -> nat): (r: seq<T>)
    requires SortedDown(s, rank)
    ensures IsSorting([x] + s, r, rank)
  {
    if s == [] then [x]
    else if rank(x) >= rank(s[0]) then
      ConsSorted(x, s, rank);
      [x] + s
    else
      var rest := InsertDown(x, s[1..], rank);
      InsertBelow(x, s, rest, rank);
      [s[0]] + rest
  }

  function SortDown<T>(s: seq<T>, rank: T -> nat): (r: seq<T>)
    ensures IsSorting(s, r, rank)
  {
    if s == [] then []
    else
      assert s == [s[0]] + s[1..];
      InsertDown(s[0], SortDown(s[1..], rank), rank)
  }

  method SortUnstable<T>(s: seq<T>, rank: T -> nat) returns (sorted: seq<T>)
    ensures IsSorting(s, sorted, rank)
  {
    sorted := SortDown(s, rank);
  }

  ghost predicate Lists<K, V>(entries: seq<(K, V)>, m: map<K, V>) {
    && NoDup(entries)
    && (forall e :: e in entries ==> e.0 in m && m[e.0] == e.1)
    && (forall k :: k in m ==> (k, m[k]) in entries)
  }

  /** Lists a map's entries in an arbitrary order. */
  method EntriesOf<K(==), V(==)>(m: map<K, V>) returns (entries: seq<(K, V)>)
    ensures Lists(entries, m)
  {
    entries := [];
    var left := m.Keys;
    while left != {}
      invariant left <= m.Keys
      invariant NoDup(entries)
      invariant forall e :: e in entries ==> e.0 in m && e.0 !in left && m[e.0] == e.1
      invariant forall k :: k in m && k !in left ==> (k, m[k]) in entries
    {
      var k :| k in left;
      left := left - {k};
      entries := entries + [(k, m[k])];
    }
  }

  // ----- Sorted listings -----

  lemma {:induction false} NoDupSetSize<T>(s: seq<T>)
    requires NoDup(s)
    ensures |Elems(s)| == |s|
  {
    if s != [] {
      NoDupSetSize(s[1..]);
      assert Elems(s) == {s[0]} + Elems(s[1..]);
    }
  }

  lemma {:induction false} ElemsAtMostLength<T>(s: seq<T>)
    ensures |Elems(s)| <= |s|
  {
    if s != [] {
      ElemsAtMostLength(s[1..]);
      assert Elems(s) == {s[0]} + Elems(s[1..]);
    }
  }

  /** A member that a truncation drops stands behind it. */
  lemma Dropped<T>(s: seq<T>, n: nat, x: T) returns (j: nat)
    requires x in s && x !in Truncate(s, n)
    ensures n <= j < |s| && s[j] == x
  {
    var kept, rest := Truncate(s, n), s[Min(n, |s|)..];
    assert s == kept + rest;
    var k :| 0 <= k < |rest| && rest[k] == x;
    j := |kept| + k;
  }

  lemma SubsetSize<T>(a: set<T>, b: set<T>)
    requires a <= b
    ensures |a| <= |b|
  {
    assert b == a + (b - a);
  }

  lemma {:induction false} NoDupMultiset<T>(s: seq<T>)
    requires NoDup(s)
    ensures forall x :: multiset(s)[x] == if x in s then 1 else 0
  {
    if s != [] {
      assert s == [s[0]] + s[1..];
      NoDupMultiset(s[1..]);
      assert s[0] !in multiset(s[1..]);
    }
  }

  lemma MultisetNoDup<T>(s: seq<T>)
    requires forall x :: multiset(s)[x] <= 1
    ensures NoDup(s)
  {
    forall i, j | 0 <= i < j < |s| ensures s[i] != s[j] {
      var before, after := s[..j], s[j..];
      assert s == before + after;
      assert s[i] in multiset(before) && s[j] in multiset(after);
      assert multiset(s)[s[i]] == multiset(before)[s[i]] + multiset(after)[s[i]];
    }
  }

  /** Rearranging a listing gives another listing of the same rows. */
  lemma RearrangedLists<T>(s: seq<T>, t: seq<T>, rows: set<T>)
    requires Listing(s, rows) && multiset(s) == multiset(t)
    ensures Listing(t, rows)
  {
    NoDupMultiset(s);
    MultisetNoDup(t);
    forall x ensures x in t <==> x in s {
      assert x in t <==> x in multiset(t);
    }
  }

  lemma ListingsRearrange<T>(s: seq<T>, t: seq<T>, rows: set<T>)
    requires Listing(s, rows) && Listing(t, rows)
    ensures multiset(s) == multiset(t)
  {
    NoDupMultiset(s);
    NoDupMultiset(t);
    assert forall x :: x in s <==> x in Elems(s);
    assert forall x :: x in t <==> x in Elems(t);
  }

  lemma {:induction false} AnyListing<T>(rows: set<T>) returns (s: seq<T>)
    ensures Listing(s, rows)
  {
    s := [];
    if rows != {} {
      var x :| x in rows;
      var rest := AnyListing(rows - {x});
      assert x !in Elems(rest);
      s := [x] + rest;
      assert Elems(s) == {x} + Elems(rest);
    }
  }

  lemma SortedListing<T>(rows: set<T>, rank: T -> nat) returns (sorted: seq<T>)
    ensures Listing(sorted, rows) && SortedDown(sorted, rank)
  {
    var s := AnyListing(rows);
    sorted := SortDown(s, rank);
    RearrangedLists(s, sorted, rows);
  }

  /** Some sort by `key` puts `y` behind every row whose key is not below its own. */
  lemma LastOfItsKey<T>(rows: set<T>, key: T -> nat, y: T) returns (sorted: seq<T>, i: nat)
    requires y in rows
    ensures Listing(sorted, rows) && SortedDown(sorted, key)
    ensures i < |sorted| && sorted[i] == y
    ensures forall x :: x in rows && x != y && key(x) >= key(y) ==> x in sorted[..i]
  {
    var late := (x: T) => 2 * key(x) + if x == y then 0 else 1;
    sorted := SortedListing(rows, late);
    assert forall i, j :: 0 <= i < j < |sorted| ==> late(sorted[i]) >= late(sorted[j]);
    assert y in Elems(sorted);
    i :| 0 <= i < |sorted| && sorted[i] == y;
    forall x | x in rows && x != y && key(x) >= key(y) ensures x in sorted[..i] {
      assert x in Elems(sorted);
      var j :| 0 <= j < |sorted| && sorted[j] == x;
      assert late(x) > late(y);
      assert sorted[..i][j] == x;
    }
  }

  lemma TruncationDraws<T>(s: seq<T>, rows: set<T>, n: nat)
    requires NoDup(s) && Elems(s) <= rows && Min(n, |s|) == Min(n, |rows|)
    ensures Drawn(Truncate(s, n), rows, n)
  {
    forall x | x in Truncate(s, n) ensures x in rows {
      assert x in Elems(s);
    }
  }

  // ----- Cutting by a key -----

  /** `list` is what some sort of `rows` by `key` leaves after truncating. */
  ghost predicate Cut<T(!new)>(list: seq<T>, rows: set<T>, n: nat, key: T -> nat) {
    exists sorted :: Listing(sorted, rows) && SortedDown(sorted, key) && list == Truncate(sorted, n)
  }

  /** The key separates whatever the rank separates. */
  ghost predicate Agrees<T>(rows: set<T>, key: T -> nat, rank: T -> nat) {
    forall x, y :: x in rows && y in rows && rank(x) > rank(y) ==> key(x) > key(y)
  }

  lemma CutOfAgreeing<T>(sorted: seq<T>, rows: set<T>, n: nat, key: T -> nat, rank: T -> nat)
    requires Listing(sorted, rows) && SortedDown(sorted, key) && Agrees(rows, key, rank)
    ensures IsTopN(Truncate(sorted, n), rows, n, rank)
  {
    var top := Truncate(sorted, n);
    NoDupSetSize(sorted);
    forall i, j | 0 <= i < j < |sorted| ensures rank(sorted[i]) >= rank(sorted[j]) {
      assert sorted[i] in Elems(sorted) && sorted[j] in Elems(sorted);
    }
    TruncationDraws(sorted, rows, n);
    forall x, y | x in top && y in rows && y !in top ensures rank(y) <= rank(x) {
      assert y in Elems(sorted);
      var i :| 0 <= i < |top| && sorted[i] == x;
      var j := Dropped(sorted, n, y);
    }
  }

  /** Sorting by a key and truncating gives the true top, for any order of ties, exactly when the key agrees. */
  lemma CutIsTopExactlyWhenKeyAgrees<T(!new)>(rows: set<T>, key: T -> nat, rank: T -> nat)
    ensures (forall list, n: nat :: Cut(list, rows, n, key) ==> IsTopN(list, rows, n, rank))
            <==> Agrees(rows, key, rank)
  {
    if Agrees(rows, key, rank) {
      forall list, n: nat | Cut(list, rows, n, key) ensures IsTopN(list, rows, n, rank) {
        var sorted :| Listing(sorted, rows) && SortedDown(sorted, key) && list == Truncate(sorted, n);
        CutOfAgreeing(sorted, rows, n, key, rank);
      }
    } else {
      var y, x :| y in rows && x in rows && rank(y) > rank(x) && key(y) <= key(x);
      var sorted, i := LastOfItsKey(rows, key, y);
      var list := Truncate(sorted, i);
      assert x in list && y !in list;
      assert Cut(list, rows, i, key) && !IsTopN(list, rows, i, rank);
    }
  }

  // ----- Truncate, merge, truncate -----

  /**
   * `list` is what remains when `rows` are sorted by `key` and truncated, joined by `extra`, sorted
   * by `rank` and truncated again, with ties in any order both times.
   */
  ghost predicate CutThenMerged<T(!new)>(
    list: seq<T>, rows: set<T>, extra: set<T>, n: nat, key: T -> nat, rank: T -> nat)
  {
    exists sorted, merged :: IsMerge(sorted, merged, rows, extra, n, key, rank) && list == Truncate(merged, n)
  }

  ghost predicate IsMerge<T>(
    sorted: seq<T>, merged: seq<T>, rows: set<T>, extra: set<T>, n: nat, key: T -> nat, rank: T -> nat)
  {
    && Listing(sorted, rows) && SortedDown(sorted, key)
    && Listing(merged, Elems(Truncate(sorted, n)) + extra) && SortedDown(merged, rank)
  }

  /** Rows of a lower rank that may stand beside the kept rows when `y` is cut off. */
  ghost function Overtakers<T>(rows: set<T>, extra: set<T>, key: T -> nat, rank: T -> nat, y: T): set<T> {
    (set x | x in rows && key(x) >= key(y) && rank(x) < rank(y)) + (set x | x in extra && rank(x) < rank(y))
  }

  /** No row has more overtakers than the second truncation removes. */
  ghost predicate FewOvertakers<T>(rows: set<T>, extra: set<T>, key: T -> nat, rank: T -> nat) {
    forall y :: y in rows ==> |Overtakers(rows, extra, key, rank, y)| <= |extra|
  }

  /** With an agreeing key only extra rows overtake, and without extra rows nothing else will do. */
  lemma AgreeingHasFewOvertakers<T>(rows: set<T>, extra: set<T>, key: T -> nat, rank: T -> nat)
    ensures Agrees(rows, key, rank) ==> FewOvertakers(rows, extra, key, rank)
    ensures extra == {} && FewOvertakers(rows, extra, key, rank) ==> Agrees(rows, key, rank)
  {
    if Agrees(rows, key, rank) {
      forall y | y in rows ensures |Overtakers(rows, extra, key, rank, y)| <= |extra| {
        SubsetSize(Overtakers(rows, extra, key, rank, y), extra);
      }
    }
    if extra == {} && FewOvertakers(rows, extra, key, rank) {
      forall x, y | x in rows && y in rows && rank(y) > rank(x) ensures key(y) > key(x) {
        assert Overtakers(rows, extra, key, rank, y) == {};
        assert x !in Overtakers(rows, extra, key, rank, y);
      }
    }
  }

  lemma MergeSizes<T>(
    sorted: seq<T>, merged: seq<T>, rows: set<T>, extra: set<T>, n: nat, key: T -> nat, rank: T -> nat)
    requires rows !! extra && IsMerge(sorted, merged, rows, extra, n, key, rank)
    ensures |merged| == Min(n, |sorted|) + |extra| && |sorted| == |rows|
    ensures |rows + extra| == |rows| + |extra|
    ensures Elems(merged) <= rows + extra
  {
    var kept := Truncate(sorted, n);
    NoDupSetSize(sorted);
    NoDupSetSize(kept);
    NoDupSetSize(merged);
    forall x | x in kept ensures x in rows {
      assert x in Elems(sorted);
    }
    assert Elems(kept) !! extra;
  }

  lemma MergeDraws<T>(
    sorted: seq<T>, merged: seq<T>, rows: set<T>, extra: set<T>, n: nat, key: T -> nat, rank: T -> nat)
    requires rows !! extra && IsMerge(sorted, merged, rows, extra, n, key, rank)
    ensures Drawn(Truncate(merged, n), rows + extra, n)
  {
    MergeSizes(sorted, merged, rows, extra, n, key, rank);
    TruncationDraws(merged, rows + extra, n);
  }

  /** Whatever the keys, the list draws the right number of distinct rows. */
  lemma CutThenMergedDraws<T(!new)>(
    list: seq<T>, rows: set<T>, extra: set<T>, n: nat, key: T -> nat, rank: T -> nat)
    requires rows !! extra && CutThenMerged(list, rows, extra, n, key, rank)
    ensures Drawn(list, rows + extra, n) && SortedDown(list, rank)
  {
    var sorted, merged :| IsMerge(sorted, merged, rows, extra, n, key, rank) && list == Truncate(merged, n);
    MergeDraws(sorted, merged, rows, extra, n, key, rank);
  }

  lemma LowRowOvertakes<T>(
    sorted: seq<T>, rows: set<T>, extra: set<T>, n: nat, key: T -> nat, rank: T -> nat, j: nat, x: T)
    requires Listing(sorted, rows) && SortedDown(sorted, key)
    requires n <= j < |sorted| && rank(x) < rank(sorted[j])
    requires x in Elems(Truncate(sorted, n)) + extra
    ensures x in Overtakers(rows, extra, key, rank, sorted[j])
  {
    if x !in extra {
      var k :| 0 <= k < n && sorted[k] == x;
      assert x in Elems(sorted);
    }
  }

  lemma LowTailOvertakes<T>(
    sorted: seq<T>, merged: seq<T>, rows: set<T>, extra: set<T>, n: nat, key: T -> nat, rank: T -> nat, i: nat, j: nat)
    requires IsMerge(sorted, merged, rows, extra, n, key, rank)
    requires i < |merged| && n <= j < |sorted| && rank(merged[i]) < rank(sorted[j])
    ensures Elems(merged[i..]) <= Overtakers(rows, extra, key, rank, sorted[j])
  {
    forall k | i <= k < |merged| ensures merged[k] in Overtakers(rows, extra, key, rank, sorted[j]) {
      assert merged[k] in Elems(merged);
      LowRowOvertakes(sorted, rows, extra, n, key, rank, j, merged[k]);
    }
  }

  /** A row that was cut off before the merge is not above a listed one. */
  lemma CutOffIsNotAbove<T>(
    sorted: seq<T>, merged: seq<T>, rows: set<T>, extra: set<T>, n: nat, key: T -> nat, rank: T -> nat, i: nat, y: T)
    requires rows !! extra && IsMerge(sorted, merged, rows, extra, n, key, rank)
    requires |Overtakers(rows, extra, key, rank, y)| <= |extra|
    requires i < |merged| && i < n && y in rows && y !in Elems(merged)
    ensures rank(y) <= rank(merged[i])
  {
    MergeSizes(sorted, merged, rows, extra, n, key, rank);
    assert y in Elems(sorted) && y !in Elems(Truncate(sorted, n));
    var j := Dropped(sorted, n, y);
    if rank(merged[i]) < rank(y) {
      LowTailOvertakes(sorted, merged, rows, extra, n, key, rank, i, j);
      NoDupSetSize(merged[i..]);
      SubsetSize(Elems(merged[i..]), Overtakers(rows, extra, key, rank, y));
    }
  }

  lemma MergeOfFewIsTop<T>(
    sorted: seq<T>, merged: seq<T>, rows: set<T>, extra: set<T>, n: nat, key: T -> nat, rank: T -> nat)
    requires rows !! extra && IsMerge(sorted, merged, rows, extra, n, key, rank)
    requires FewOvertakers(rows, extra, key, rank)
    ensures IsTopN(Truncate(merged, n), rows + extra, n, rank)
  {
    var top := Truncate(merged, n);
    MergeDraws(sorted, merged, rows, extra, n, key, rank);
    forall x, y | x in top && y in rows + extra && y !in top ensures rank(y) <= rank(x) {
      var i :| 0 <= i < |top| && merged[i] == x;
      if y in Elems(merged) {
        var j := Dropped(merged, n, y);
      } else {
        CutOffIsNotAbove(sorted, merged, rows, extra, n, key, rank, i, y);
      }
    }
  }

  /** With too many overtakers, cutting just before their victim keeps them all and lists one. */
  lemma OvertakenIsDropped<T(!new)>(rows: set<T>, extra: set<T>, key: T -> nat, rank: T -> nat, y: T)
    returns (list: seq<T>, n: nat)
    requires rows !! extra && y in rows && |Overtakers(rows, extra, key, rank, y)| > |extra|
    ensures CutThenMerged(list, rows, extra, n, key, rank) && !IsTopN(list, rows + extra, n, rank)
  {
    var sorted;
    sorted, n := LastOfItsKey(rows, key, y);
    var kept := Truncate(sorted, n);
    var merged := SortedListing(Elems(kept) + extra, rank);
    assert IsMerge(sorted, merged, rows, extra, n, key, rank);
    list := Truncate(merged, n);
    MergeSizes(sorted, merged, rows, extra, n, key, rank);
    assert y !in Elems(merged);
    var over := Overtakers(rows, extra, key, rank, y);
    assert over <= Elems(merged);
    var x := OneIsListed(merged, n, over);
    assert rank(x) < rank(y);
  }

  lemma OneIsListed<T>(merged: seq<T>, n: nat, some: set<T>) returns (x: T)
    requires some != {} && some <= Elems(merged) && |merged| < n + |some|
    ensures x in some && x in Truncate(merged, n)
  {
    var list, rest := Truncate(merged, n), merged[Min(n, |merged|)..];
    if some !! Elems(list) {
      forall z | z in some ensures z in Elems(rest) {
        assert z in Elems(merged) && z !in Elems(list);
        var j := Dropped(merged, n, z);
        assert rest[j - n] == z;
      }
      SubsetSize(some, Elems(rest));
      ElemsAtMostLength(rest);
      assert false;
    }
    x :| x in some && x in Elems(list);
  }

  /**
   * Truncating by one key, merging and truncating by another rank gives a true top for every length
   * and every order of ties exactly when no row has more overtakers than there are extra rows.
   */
  lemma MergeIsTopExactlyWhenFewOvertake<T(!new)>(rows: set<T>, extra: set<T>, key: T -> nat, rank: T -> nat)
    requires rows !! extra
    ensures (forall list, n: nat ::
               CutThenMerged(list, rows, extra, n, key, rank) ==> IsTopN(list, rows + extra, n, rank))
            <==> FewOvertakers(rows, extra, key, rank)
  {
    if FewOvertakers(rows, extra, key, rank) {
      forall list, n: nat | CutThenMerged(list, rows, extra, n, key, rank)
        ensures IsTopN(list, rows + extra, n, rank)
      {
        var sorted, merged :| IsMerge(sorted, merged, rows, extra, n, key, rank) && list == Truncate(merged, n);
        MergeOfFewIsTop(sorted, merged, rows, extra, n, key, rank);
      }
    } else {
      var y :| y in rows && |Overtakers(rows, extra, key, rank, y)| > |extra|;
      var list, n := OvertakenIsDropped(rows, extra, key, rank, y);
      assert CutThenMerged(list, rows, extra, n, key, rank) && !IsTopN(list, rows + extra, n, rank);
    }
  }

  /**
   * Sorting and truncating `s`, adding `extra`, then sorting and truncating again gives the same
   * top `n` as ranking everything together, whichever order the two unstable sorts choose for ties.
   */
  lemma TruncateMergeTruncate<T>(
    s: seq<T>, sorted: seq<T>, extra: seq<T>, merged: seq<T>, n: nat, rank: T -> nat)
    requires NoDup(s + extra)
    requires IsSorting(s, sorted, rank)
    requires IsSorting(Truncate(sorted, n) + extra, merged, rank)
    ensures IsTopN(Truncate(merged, n), Elems(s + extra), n, rank)
  {
    NoDupParts(s, extra);
    RearrangedLists(s, sorted, Elems(s));
    MergedLists(sorted, extra, merged, n);
    assert Agrees(Elems(s), rank, rank);
    AgreeingHasFewOvertakers(Elems(s), Elems(extra), rank, rank);
    MergeOfFewIsTop(sorted, merged, Elems(s), Elems(extra), n, rank, rank);
    assert Elems(s + extra) == Elems(s) + Elems(extra);
  }

  lemma NoDupParts<T>(a: seq<T>, b: seq<T>)
    requires NoDup(a + b)
    ensures NoDup(a) && NoDup(b) && Elems(a) !! Elems(b)
  {
    var all := a + b;
    forall i, j | 0 <= i < j < |a| ensures a[i] != a[j] {
      assert all[i] == a[i] && all[j] == a[j];
    }
    forall i, j | 0 <= i < j < |b| ensures b[i] != b[j] {
      assert all[|a| + i] == b[i] && all[|a| + j] == b[j];
    }
    forall x | x in a ensures x !in b {
      var i :| 0 <= i < |a| && a[i] == x;
      assert forall j :: 0 <= j < |b| ==> all[|a| + j] == b[j] && all[i] != all[|a| + j];
    }
  }

  lemma NoDupJoin<T>(a: seq<T>, b: seq<T>)
    requires NoDup(a) && NoDup(b) && Elems(a) !! Elems(b)
    ensures NoDup(a + b)
  {
    forall i, j | 0 <= i < |a| && 0 <= j < |b| ensures a[i] != b[j] {
      assert a[i] in Elems(a) && b[j] in Elems(b);
    }
  }

  /** Sorting kept rows together with disjoint extra rows lists both. */
  lemma MergedLists<T>(sorted: seq<T>, extra: seq<T>, merged: seq<T>, n: nat)
    requires NoDup(sorted) && NoDup(extra) && Elems(sorted) !! Elems(extra)
    requires multiset(Truncate(sorted, n) + extra) == multiset(merged)
    ensures Listing(merged, Elems(Truncate(sorted, n)) + Elems(extra))
  {
    var kept := Truncate(sorted, n);
    assert Elems(kept) <= Elems(sorted);
    NoDupJoin(kept, extra);
    assert Elems(kept + extra) == Elems(kept) + Elems(extra);
    RearrangedLists(kept + extra, merged, Elems(kept + extra));
  }

  lemma MergedRearranges<T>(sorted: seq<T>, extra: seq<T>, merged: seq<T>, n: nat)
    requires NoDup(sorted) && NoDup(extra) && Elems(sorted) !! Elems(extra)
    requires Listing(merged, Elems(Truncate(sorted, n)) + Elems(extra))
    ensures multiset(Truncate(sorted, n) + extra) == multiset(merged)
  {
    var kept := Truncate(sorted, n);
    assert Elems(kept) <= Elems(sorted);
    NoDupJoin(kept, extra);
    assert Elems(kept + extra) == Elems(kept) + Elems(extra);
    ListingsRearrange(kept + extra, merged, Elems(merged));
  }

  function Mapped<A, B>(s: seq<A>, f: A -> B): (r: seq<B>)
    ensures |r| == |s| && forall i :: 0 <= i < |s| ==> r[i] == f(s[i])
  {
    if s == [] then [] else [f(s[0])] + Mapped(s[1..], f)
  }
}
