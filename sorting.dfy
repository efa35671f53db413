/**
  `all_rows.sort(key=lambda x: x[3])`: a stable, in-place sort of the rows
  by their State column.
 */
module StateSort {
  import opened Json
  import opened Company
  import opened StateOrder

  /** Every row's State is at or below every later row's State. */
  predicate Sorted(rows: seq<Row>) {
    forall i, j :: 0 <= i < j < |rows| ==> KeyLe(rows[i].state, rows[j].state)
  }

  /** The rows whose State is equivalent to `k`, in their order. */
  function WithState(rows: seq<Row>, k: Scalar): seq<Row>
    decreases |rows|
  {
    if rows == [] then []
    else WithState(rows[..|rows| - 1], k) + (if Equivalent(rows[|rows| - 1].state, k) then [rows[|rows| - 1]] else [])
  }

  /** The rows whose State is exactly `k`, in their order. */
  function WithExactState(rows: seq<Row>, k: Scalar): seq<Row>
    decreases |rows|
  {
    if rows == [] then []
    else WithExactState(rows[..|rows| - 1], k) + (if rows[|rows| - 1].state == k then [rows[|rows| - 1]] else [])
  }

  /** For a string State the sort's equivalence class is the State itself. */
  lemma {:induction false} WithStringState(rows: seq<Row>, s: string)
    ensures WithState(rows, Str(s)) == WithExactState(rows, Str(s))
    decreases |rows|
  {
    if rows != [] {
      var last := rows[|rows| - 1];
      WithStringState(rows[..|rows| - 1], s);
      KeyLeRefl(Str(s));
      if Equivalent(last.state, Str(s)) {
        EquivalentStrings(last.state, Str(s));
      }
    }
  }

  /** `sorted` with `x` put after every row whose State is not above `x`'s. */
  function InsertRow(sorted: seq<Row>, x: Row): seq<Row>
    decreases |sorted|
  {
    if sorted == [] then [x]
    else if !KeyLt(x.state, sorted[|sorted| - 1].state) then sorted + [x]
    else InsertRow(sorted[..|sorted| - 1], x) + [sorted[|sorted| - 1]]
  }

  /** Insertion sort by State: the reference for the in-place sort. */
  function SortRows(rows: seq<Row>): seq<Row>
    decreases |rows|
  {
    if rows == [] then [] else InsertRow(SortRows(rows[..|rows| - 1]), rows[|rows| - 1])
  }

  lemma {:induction false} InsertRowAt(sorted: seq<Row>, x: Row, j: nat)
    requires j <= |sorted|
    requires j > 0 ==> !KeyLt(x.state, sorted[j - 1].state)
    requires forall m :: j <= m < |sorted| ==> KeyLt(x.state, sorted[m].state)
    ensures InsertRow(sorted, x) == sorted[..j] + [x] + sorted[j..]
    decreases |sorted|
  {
    if j == |sorted| {
      assert sorted[..j] == sorted;
    } else {
      var init := sorted[..|sorted| - 1];
      InsertRowAt(init, x, j);
      assert init[..j] == sorted[..j];
      assert sorted[j..] == init[j..] + [sorted[|sorted| - 1]];
    }
  }

  lemma {:induction false} InsertRowPermutes(sorted: seq<Row>, x: Row)
    ensures multiset(InsertRow(sorted, x)) == multiset(sorted) + multiset{x}
    decreases |sorted|
  {
    if sorted != [] && KeyLt(x.state, sorted[|sorted| - 1].state) {
      var init := sorted[..|sorted| - 1];
      InsertRowPermutes(init, x);
      assert sorted == init + [sorted[|sorted| - 1]];
    }
  }

  lemma {:induction false} InsertRowSorted(sorted: seq<Row>, x: Row)
    requires Sorted(sorted)
    ensures Sorted(InsertRow(sorted, x))
    decreases |sorted|
  {
    if sorted == [] {
    } else {
      var last := sorted[|sorted| - 1];
      var r := InsertRow(sorted, x);
      if !KeyLt(x.state, last.state) {
        forall i, j | 0 <= i < j < |r| ensures KeyLe(r[i].state, r[j].state) {
          if j == |sorted| {
            if i < |sorted| - 1 {
              KeyLeTrans(r[i].state, last.state, x.state);
            }
          }
        }
      } else {
        var init := sorted[..|sorted| - 1];
        var r' := InsertRow(init, x);
        InsertRowSorted(init, x);
        InsertRowPermutes(init, x);
        KeyLeTotal(x.state, last.state);
        forall i, j | 0 <= i < j < |r| ensures KeyLe(r[i].state, r[j].state) {
          if j == |r| - 1 {
            assert r[i] in multiset(r');
            if r[i] != x {
              assert r[i] in multiset(init);
              var m :| 0 <= m < |init| && init[m] == r[i];
              assert sorted[m] == r[i];
            }
          }
        }
      }
    }
  }

  /** A row strictly below another cannot share a State class with it. */
  lemma NotBothEquivalent(x: Row, y: Row, k: Scalar)
    requires KeyLt(x.state, y.state)
    ensures Own(x, k) == [] || Own(y, k) == []
  {
    if Equivalent(x.state, k) && Equivalent(y.state, k) {
      KeyLeTrans(y.state, k, x.state);
    }
  }

  /** The rows of `x`'s State class that `x` alone contributes. */
  function Own(x: Row, k: Scalar): seq<Row> {
    if Equivalent(x.state, k) then [x] else []
  }

  lemma WithStateSnoc(rows: seq<Row>, x: Row, k: Scalar)
    ensures WithState(rows + [x], k) == WithState(rows, k) + Own(x, k)
  {
    assert (rows + [x])[..|rows|] == rows;
  }

  /** Inserting keeps the rows of every State in their order, with `x` last among its equals. */
  lemma {:induction false} InsertRowStable(sorted: seq<Row>, x: Row, k: Scalar)
    ensures WithState(InsertRow(sorted, x), k) == WithState(sorted, k) + Own(x, k)
    decreases |sorted|
  {
    if sorted == [] {
      WithStateSnoc([], x, k);
    } else if !KeyLt(x.state, sorted[|sorted| - 1].state) {
      WithStateSnoc(sorted, x, k);
    } else {
      InsertBelowLastStable(sorted, x, k);
    }
  }

  lemma {:induction false} InsertBelowLastStable(sorted: seq<Row>, x: Row, k: Scalar)
    requires sorted != [] && KeyLt(x.state, sorted[|sorted| - 1].state)
    ensures WithState(InsertRow(sorted, x), k) == WithState(sorted, k) + Own(x, k)
    decreases |sorted|, 0
  {
    var init, last := sorted[..|sorted| - 1], sorted[|sorted| - 1];
    var r' := InsertRow(init, x);
    assert InsertRow(sorted, x) == r' + [last];
    InsertRowStable(init, x, k);
    WithStateSnoc(r', last, k);
    assert sorted == init + [last];
    WithStateSnoc(init, last, k);
    NotBothEquivalent(x, last, k);
    AppendEitherOrder(WithState(init, k), Own(x, k), Own(last, k));
  }

  lemma AppendEitherOrder(w: seq<Row>, p: seq<Row>, q: seq<Row>)
    requires p == [] || q == []
    ensures w + p + q == w + q + p
  {
    if p == [] {
      assert w + p == w;
    } else {
      assert w + q == w;
    }
  }

  /** The result is ordered by State. */
  lemma {:induction false} SortRowsSorted(rows: seq<Row>)
    ensures Sorted(SortRows(rows))
    decreases |rows|
  {
    if rows != [] {
      SortRowsSorted(rows[..|rows| - 1]);
      InsertRowSorted(SortRows(rows[..|rows| - 1]), rows[|rows| - 1]);
    }
  }

  /** The result is a permutation of the input: no row is lost or duplicated. */
  lemma {:induction false} SortRowsPermutes(rows: seq<Row>)
    ensures multiset(SortRows(rows)) == multiset(rows)
    ensures |SortRows(rows)| == |rows|
    decreases |rows|
  {
    if rows != [] {
      var init := rows[..|rows| - 1];
      SortRowsPermutes(init);
      InsertRowPermutes(SortRows(init), rows[|rows| - 1]);
      assert rows == init + [rows[|rows| - 1]];
    }
    assert |multiset(SortRows(rows))| == |multiset(rows)|;
  }

  /** The sort is stable: rows with equivalent State keep their input order. */
  lemma {:induction false} SortRowsStable(rows: seq<Row>, k: Scalar)
    ensures WithState(SortRows(rows), k) == WithState(rows, k)
    decreases |rows|
  {
    if rows != [] {
      var init := rows[..|rows| - 1];
      SortRowsStable(init, k);
      InsertRowStable(SortRows(init), rows[|rows| - 1], k);
    }
  }

  lemma {:induction false} WithStateMember(rows: seq<Row>, k: Scalar, x: Row)
    requires x in WithState(rows, k)
    ensures x in rows && Equivalent(x.state, k)
    decreases |rows|
  {
    var init := rows[..|rows| - 1];
    if x in WithState(init, k) {
      WithStateMember(init, k, x);
      assert x in rows by { var m :| 0 <= m < |init| && init[m] == x; assert rows[m] == x; }
    }
  }

  /** Dropping a common last row keeps the per-State rows equal. */
  lemma DropCommonLast(r1: seq<Row>, r2: seq<Row>, k: Scalar)
    requires r1 != [] && r2 != [] && r1[|r1| - 1] == r2[|r2| - 1]
    requires WithState(r1, k) == WithState(r2, k)
    ensures WithState(r1[..|r1| - 1], k) == WithState(r2[..|r2| - 1], k)
  {
    var last := r1[|r1| - 1];
    var x1, x2 := WithState(r1[..|r1| - 1], k), WithState(r2[..|r2| - 1], k);
    if Equivalent(last.state, k) {
      assert x1 == (x1 + [last])[..|x1|] && x2 == (x2 + [last])[..|x2|];
    } else {
      assert x1 + [] == x1 && x2 + [] == x2;
    }
  }

  /** The last row is among the rows with its own State. */
  lemma LastRowKept(r: seq<Row>)
    requires r != []
    ensures WithState(r, r[|r| - 1].state) != []
  {
    KeyLeRefl(r[|r| - 1].state);
  }

  lemma NothingKeptMeansEmpty(r: seq<Row>)
    requires forall k: Scalar :: WithState([], k) == WithState(r, k)
    ensures r == []
  {
    if r != [] {
      LastRowKept(r);
      assert false;
    }
  }

  /** In an ordered sequence, a row whose State occurs in it is at most the last row's. */
  lemma AtMostLast(r: seq<Row>, k: Scalar)
    requires Sorted(r) && WithState(r, k) != []
    ensures KeyLe(k, r[|r| - 1].state)
  {
    var w := WithState(r, k);
    WithStateMember(r, k, w[|w| - 1]);
    var m :| 0 <= m < |r| && r[m] == w[|w| - 1];
    if m < |r| - 1 {
      KeyLeTrans(k, r[m].state, r[|r| - 1].state);
    }
  }

  /**
    Stable sorting has one answer: two State-ordered sequences holding, for
    every State, the same rows in the same order are equal. So every stable
    sort by State, CPython's included, produces `SortRows`.
   */
  lemma {:induction false} StableSortUnique(r1: seq<Row>, r2: seq<Row>)
    requires Sorted(r1) && Sorted(r2)
    requires forall k: Scalar :: WithState(r1, k) == WithState(r2, k)
    ensures r1 == r2
    decreases |r1| + |r2|
  {
    if r1 == [] {
      NothingKeptMeansEmpty(r2);
    } else if r2 == [] {
      NothingKeptMeansEmpty(r1);
    } else {
      var a, b := r1[|r1| - 1], r2[|r2| - 1];
      var init1, init2 := r1[..|r1| - 1], r2[..|r2| - 1];
      KeyLeRefl(a.state);
      KeyLeRefl(b.state);
      // each last row's State occurs in the other sequence, so the two are equivalent
      assert WithState(r1, a.state) != [] && WithState(r2, b.state) != [];
      assert WithState(r1, a.state) == WithState(r2, a.state);
      assert WithState(r1, b.state) == WithState(r2, b.state);
      AtMostLast(r2, a.state);
      AtMostLast(r1, b.state);
      // so both are the last row of the same per-State sequence
      assert WithState(r1, a.state) == WithState(init1, a.state) + [a];
      assert WithState(r2, a.state) == WithState(init2, a.state) + [b];
      var w := WithState(r1, a.state);
      assert w[|w| - 1] == a && w[|w| - 1] == b;
      forall k: Scalar
        ensures WithState(init1, k) == WithState(init2, k)
      {
        DropCommonLast(r1, r2, k);
      }
      StableSortUnique(init1, init2);
      assert r1 == init1 + [a] && r2 == init2 + [b];
    }
  }

  /** Any ordered, stable rearrangement of `rows` is `SortRows(rows)`. */
  lemma StableSortIsSortRows(rows: seq<Row>, sorted: seq<Row>)
    requires Sorted(sorted)
    requires forall k: Scalar :: WithState(sorted, k) == WithState(rows, k)
    ensures sorted == SortRows(rows)
  {
    SortRowsSorted(rows);
    forall k: Scalar ensures WithState(SortRows(rows), k) == WithState(rows, k) {
      SortRowsStable(rows, k);
    }
    StableSortUnique(sorted, SortRows(rows));
  }

  lemma ShiftedIsInsertion(b: seq<Row>, t: seq<Row>, x: Row, j: nat)
    requires j <= |t| && |b| == |t| + 1
    requires forall m :: 0 <= m < j ==> b[m] == t[m]
    requires b[j] == x
    requires forall m :: j < m <= |t| ==> b[m] == t[m - 1]
    ensures b == t[..j] + [x] + t[j..]
  {
  }

  /**
    Moves the rows of `a[..i]` above `x`'s State one place up, from the top down,
    and returns the gap they leave.
   */
  method ShiftAbove(a: array<Row>, i: nat, x: Row) returns (j: nat)
    requires i < a.Length
    modifies a
    ensures j <= i
    ensures j > 0 ==> !KeyLt(x.state, old(a[j - 1]).state)
    ensures forall m :: j <= m < i ==> KeyLt(x.state, old(a[m]).state)
    ensures forall m :: 0 <= m <= j ==> a[m] == old(a[m])
    ensures forall m :: j < m <= i ==> a[m] == old(a[m - 1])
    ensures a[i + 1..] == old(a[i + 1..])
  {
    j := i;
    while j > 0 && KeyLt(x.state, a[j - 1].state)
      invariant j <= i
      invariant forall m :: 0 <= m <= j ==> a[m] == old(a[m])
      invariant forall m :: j < m <= i ==> a[m] == old(a[m - 1])
      invariant a[i + 1..] == old(a[i + 1..])
      invariant forall m :: j <= m < i ==> KeyLt(x.state, old(a[m]).state)
      decreases j
    {
      a[j] := a[j - 1];
      j := j - 1;
    }
  }

  /** One step of the sort: `a[i]` is inserted into the sorted `a[..i]`. */
  method InsertInPlace(a: array<Row>, i: nat)
    requires i < a.Length
    modifies a
    ensures a[..i + 1] == InsertRow(old(a[..i]), old(a[i]))
    ensures a[i + 1..] == old(a[i + 1..])
  {
    ghost var t := a[..i];
    var x := a[i];
    var j := ShiftAbove(a, i, x);
    a[j] := x;
    InsertRowAt(t, x, j);
    ShiftedIsInsertion(a[..i + 1], t, x, j);
  }

  /** `list.sort` in place, as a straight insertion sort. */
  method SortByState(a: array<Row>)
    modifies a
    ensures a[..] == SortRows(old(a[..]))
  {
    ghost var s := a[..];
    var i := 0;
    while i < a.Length
      invariant 0 <= i <= a.Length
      invariant a[..i] == SortRows(s[..i])
      invariant a[i..] == s[i..]
    {
      ghost var before := a[..];
      InsertInPlace(a, i);
      assert a[i + 1..] == before[i + 1..] == s[i + 1..];
      assert s[..i + 1][..i] == s[..i];
      i := i + 1;
    }
    assert s[..a.Length] == s;
  }
}
