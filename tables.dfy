/** The table operations the dashboard performs with pandas, on sequences of
    rows: column sums, `groupby(name).agg(sum, count)`, a stable descending sort
    (`sort_values(ascending=False)`, `nlargest(n, keep='first')`) and the
    top-N-plus-"Other" bucketing used by both Sankey helpers. */
module Tables {
  import opened Strings

  /** A (name, amount) row, such as one income source or one destination account. */
  datatype Row = Row(name: string, amount: real)

  /** One row of a group-by result: the key, the sum of the amounts and the row count. */
  datatype Group = Group(name: string, total: real, count: nat)

  function Amount(r: Row): real { r.amount }
  function GroupTotal(g: Group): real { g.total }
  function GroupCount(g: Group): real { g.count as real }
  function GroupName(g: Group): string { g.name }

  function Min(a: nat, b: nat): nat { if a < b then a else b }

  /** The sum of f over a sequence. */
  function SumBy<T>(s: seq<T>, f: T -> real): real {
    if s == [] then 0.0 else f(s[0]) + SumBy(s[1..], f)
  }

  /** `df[amount_col].sum()`. */
  function Total(rows: seq<Row>): real {
    SumBy(rows, Amount)
  }

  lemma {:induction false} SumByAppend<T>(a: seq<T>, b: seq<T>, f: T -> real)
    ensures SumBy(a + b, f) == SumBy(a, f) + SumBy(b, f)
  {
    if a == [] {
      assert a + b == b;
    } else {
      assert (a + b)[1..] == a[1..] + b;
      SumByAppend(a[1..], b, f);
    }
  }

  // ---------------------------------------------------------------------------
  // Stable descending sort

  predicate SortedDesc<T>(s: seq<T>, key: T -> real) {
    forall i, j :: 0 <= i < j < |s| ==> key(s[i]) >= key(s[j])
  }

  predicate DistinctBy<T>(s: seq<T>, id: T -> string) {
    forall i, j :: 0 <= i < j < |s| ==> id(s[i]) != id(s[j])
  }

  /** Inserts x before the first element whose key is not larger, so that x
      precedes the elements of s with an equal key. */
  function InsertDesc<T>(x: T, s: seq<T>, key: T -> real): (r: seq<T>)
    ensures |r| == |s| + 1
    ensures multiset(r) == multiset(s) + multiset{x}
  {
    if s == [] || key(x) >= key(s[0]) then [x] + s
    else
      assert s == [s[0]] + s[1..];
      [s[0]] + InsertDesc(x, s[1..], key)
  }

  /** Stable descending sort: among equal keys the input order is kept, which is
      the order pandas' `nlargest(n, keep='first')` returns. */
  function SortDesc<T>(s: seq<T>, key: T -> real): (r: seq<T>)
    ensures |r| == |s|
    ensures multiset(r) == multiset(s)
  {
    if s == [] then []
    else
      assert s == [s[0]] + s[1..];
      InsertDesc(s[0], SortDesc(s[1..], key), key)
  }

  lemma {:induction false} InsertDescBounded<T>(x: T, s: seq<T>, key: T -> real, b: real)
    requires key(x) <= b
    requires forall k :: 0 <= k < |s| ==> key(s[k]) <= b
    ensures forall k :: 0 <= k < |InsertDesc(x, s, key)| ==> key(InsertDesc(x, s, key)[k]) <= b
  {
    if s != [] && key(x) < key(s[0]) {
      InsertDescBounded(x, s[1..], key, b);
    }
  }

  lemma {:induction false} InsertDescSorted<T>(x: T, s: seq<T>, key: T -> real)
    requires SortedDesc(s, key)
    ensures SortedDesc(InsertDesc(x, s, key), key)
  {
    if s != [] && key(x) < key(s[0]) {
      InsertDescSorted(x, s[1..], key);
      InsertDescBounded(x, s[1..], key, key(s[0]));
    }
  }

  lemma {:induction false} SortDescSorted<T>(s: seq<T>, key: T -> real)
    ensures SortedDesc(SortDesc(s, key), key)
  {
    if s != [] {
      SortDescSorted(s[1..], key);
      InsertDescSorted(s[0], SortDesc(s[1..], key), key);
    }
  }

  lemma {:induction false} InsertDescSum<T>(x: T, s: seq<T>, key: T -> real, f: T -> real)
    ensures SumBy(InsertDesc(x, s, key), f) == f(x) + SumBy(s, f)
  {
    if s != [] && key(x) < key(s[0]) {
      InsertDescSum(x, s[1..], key, f);
    }
  }

  /** Sorting does not change any column sum. */
  lemma {:induction false} SortDescSum<T>(s: seq<T>, key: T -> real, f: T -> real)
    ensures SumBy(SortDesc(s, key), f) == SumBy(s, f)
  {
    if s != [] {
      SortDescSum(s[1..], key, f);
      InsertDescSum(s[0], SortDesc(s[1..], key), key, f);
    }
  }

  /** A sequence that is already in descending order is left as it is. */
  lemma {:induction false} SortDescOfSorted<T>(s: seq<T>, key: T -> real)
    requires SortedDesc(s, key)
    ensures SortDesc(s, key) == s
  {
    if s != [] {
      SortDescOfSorted(s[1..], key);
      assert s == [s[0]] + s[1..];
    }
  }

  lemma {:induction false} InsertDescDistinct<T>(x: T, s: seq<T>, key: T -> real, id: T -> string)
    requires DistinctBy(s, id)
    requires forall k :: 0 <= k < |s| ==> id(s[k]) != id(x)
    ensures DistinctBy(InsertDesc(x, s, key), id)
  {
    if s != [] && key(x) < key(s[0]) {
      InsertDescDistinct(x, s[1..], key, id);
      var t := InsertDesc(x, s[1..], key);
      forall k | 0 <= k < |t| ensures id(t[k]) != id(s[0]) {
        assert t[k] in multiset(t);
        if t[k] != x {
          assert t[k] in multiset(s[1..]);
          var m :| 0 <= m < |s[1..]| && s[1..][m] == t[k];
          assert s[m + 1] == t[k];
        }
      }
    }
  }

  /** Sorting keeps the keys of a table distinct. */
  lemma {:induction false} SortDescDistinct<T>(s: seq<T>, key: T -> real, id: T -> string)
    requires DistinctBy(s, id)
    ensures DistinctBy(SortDesc(s, key), id)
  {
    if s != [] {
      var t := SortDesc(s[1..], key);
      SortDescDistinct(s[1..], key, id);
      forall k | 0 <= k < |t| ensures id(t[k]) != id(s[0]) {
        assert t[k] in multiset(s[1..]);
        var m :| 0 <= m < |s[1..]| && s[1..][m] == t[k];
        assert s[m + 1] == t[k];
      }
      InsertDescDistinct(s[0], t, key, id);
    }
  }

  // ---------------------------------------------------------------------------
  // Group-by: one group per distinct name, in ascending name order

  predicate StrictlyIncreasing(s: seq<string>) {
    forall i, j :: 0 <= i < j < |s| ==> StrLess(s[i], s[j])
  }

  predicate Distinct(s: seq<string>) {
    forall i, j :: 0 <= i < j < |s| ==> s[i] != s[j]
  }

  function NameSet(rows: seq<Row>): set<string> {
    set r | r in rows :: r.name
  }

  /** Adds x to an ascending list of names unless it is already there. */
  function InsertName(x: string, s: seq<string>): (r: seq<string>)
    ensures forall y :: y in r <==> y == x || y in s
  {
    if s == [] then [x]
    else if x == s[0] then s
    else if StrLess(x, s[0]) then [x] + s
    else
      assert s == [s[0]] + s[1..];
      [s[0]] + InsertName(x, s[1..])
  }

  lemma {:induction false} InsertNameIncreasing(x: string, s: seq<string>)
    requires StrictlyIncreasing(s)
    ensures StrictlyIncreasing(InsertName(x, s))
  {
    if s == [] || x == s[0] {
    } else if StrLess(x, s[0]) {
      var r := [x] + s;
      forall i, j | 0 <= i < j < |r| ensures StrLess(r[i], r[j]) {
        if i == 0 && j > 1 { StrLessTransitive(x, s[0], s[j - 1]); }
      }
    } else {
      StrLessTotal(x, s[0]);
      InsertNameIncreasing(x, s[1..]);
      var t := InsertName(x, s[1..]);
      forall k | 0 <= k < |t| ensures StrLess(s[0], t[k]) {
        assert t[k] in t;
        if t[k] != x {
          var m :| 0 <= m < |s[1..]| && s[1..][m] == t[k];
          assert s[m + 1] == t[k];
        }
      }
    }
  }

  /** The distinct names of the rows, in ascending order (pandas sorts group keys). */
  function SortedNames(rows: seq<Row>): (names: seq<string>)
    ensures forall y :: y in names <==> y in NameSet(rows)
  {
    if rows == [] then []
    else
      assert rows == [rows[0]] + rows[1..];
      InsertName(rows[0].name, SortedNames(rows[1..]))
  }

  lemma {:induction false} SortedNamesIncreasing(rows: seq<Row>)
    ensures StrictlyIncreasing(SortedNames(rows))
  {
    if rows != [] {
      SortedNamesIncreasing(rows[1..]);
      InsertNameIncreasing(rows[0].name, SortedNames(rows[1..]));
    }
  }

  lemma IncreasingIsDistinct(s: seq<string>)
    requires StrictlyIncreasing(s)
    ensures Distinct(s)
  {
    forall i, j | 0 <= i < j < |s| ensures s[i] != s[j] {
      if s[i] == s[j] { StrLessIrreflexive(s[i]); }
    }
  }

  /** The sum of the amounts of the rows with the given name. */
  function SumFor(rows: seq<Row>, name: string): real {
    if rows == [] then 0.0
    else (if rows[0].name == name then rows[0].amount else 0.0) + SumFor(rows[1..], name)
  }

  /** The number of rows with the given name. */
  function CountFor(rows: seq<Row>, name: string): nat {
    if rows == [] then 0
    else (if rows[0].name == name then 1 else 0) + CountFor(rows[1..], name)
  }

  lemma {:induction false} CountForPositive(rows: seq<Row>, name: string)
    requires name in NameSet(rows)
    ensures CountFor(rows, name) >= 1
  {
    if rows[0].name != name {
      assert rows == [rows[0]] + rows[1..];
      CountForPositive(rows[1..], name);
    }
  }

  function GroupsFor(names: seq<string>, rows: seq<Row>): (groups: seq<Group>)
    ensures |groups| == |names|
    ensures forall i :: 0 <= i < |names| ==>
      groups[i] == Group(names[i], SumFor(rows, names[i]), CountFor(rows, names[i]))
  {
    if names == [] then []
    else [Group(names[0], SumFor(rows, names[0]), CountFor(rows, names[0]))] + GroupsFor(names[1..], rows)
  }

  /** `df.groupby(name)[amount].agg(['sum', 'count']).reset_index()`. */
  function GroupBy(rows: seq<Row>): seq<Group> {
    GroupsFor(SortedNames(rows), rows)
  }

  lemma {:induction false} GroupsStep(names: seq<string>, rows: seq<Row>)
    requires Distinct(names) && rows != []
    ensures SumBy(GroupsFor(names, rows), GroupTotal)
         == SumBy(GroupsFor(names, rows[1..]), GroupTotal) + (if rows[0].name in names then rows[0].amount else 0.0)
    ensures SumBy(GroupsFor(names, rows), GroupCount)
         == SumBy(GroupsFor(names, rows[1..]), GroupCount) + (if rows[0].name in names then 1.0 else 0.0)
  {
    if names != [] {
      assert Distinct(names[1..]);
      assert names == [names[0]] + names[1..];
      GroupsStep(names[1..], rows);
    }
  }

  lemma {:induction false} GroupsConserve(names: seq<string>, rows: seq<Row>)
    requires Distinct(names)
    requires forall k :: 0 <= k < |rows| ==> rows[k].name in names
    ensures SumBy(GroupsFor(names, rows), GroupTotal) == Total(rows)
    ensures SumBy(GroupsFor(names, rows), GroupCount) == |rows| as real
  {
    if rows == [] {
      assert forall k :: 0 <= k < |names| ==> GroupsFor(names, rows)[k] == Group(names[k], 0.0, 0);
      GroupsOfNothing(names);
    } else {
      assert rows[0].name in names;
      GroupsConserve(names, rows[1..]);
      GroupsStep(names, rows);
    }
  }

  lemma {:induction false} GroupsOfNothing(names: seq<string>)
    ensures SumBy(GroupsFor(names, []), GroupTotal) == 0.0
    ensures SumBy(GroupsFor(names, []), GroupCount) == 0.0
  {
    if names != [] {
      GroupsOfNothing(names[1..]);
    }
  }

  /** What a group-by promises: one group per distinct name, in ascending name
      order; each group's total and count are those of its rows; nothing is lost:
      the totals add up to the column sum and the counts to the row count. */
  lemma GroupByProperties(rows: seq<Row>)
    ensures StrictlyIncreasing(Names(GroupBy(rows)))
    ensures DistinctBy(GroupBy(rows), GroupName)
    ensures forall y :: y in Names(GroupBy(rows)) <==> y in NameSet(rows)
    ensures forall g :: g in GroupBy(rows) ==>
      g.total == SumFor(rows, g.name) && g.count == CountFor(rows, g.name) && g.count >= 1
    ensures SumBy(GroupBy(rows), GroupTotal) == Total(rows)
    ensures SumBy(GroupBy(rows), GroupCount) == |rows| as real
  {
    var names := SortedNames(rows);
    SortedNamesIncreasing(rows);
    IncreasingIsDistinct(names);
    assert Names(GroupBy(rows)) == names;
    forall k | 0 <= k < |rows| ensures rows[k].name in names {
      assert rows[k] in rows;
    }
    GroupsConserve(names, rows);
    forall g | g in GroupBy(rows) ensures g.count >= 1 {
      CountForPositive(rows, g.name);
    }
  }

  function Names(groups: seq<Group>): (names: seq<string>)
    ensures |names| == |groups|
    ensures forall i :: 0 <= i < |groups| ==> names[i] == groups[i].name
  {
    if groups == [] then [] else [groups[0].name] + Names(groups[1..])
  }

  // ---------------------------------------------------------------------------
  // Top N with an "Other" row

  /** `df.nlargest(n, amount)`: the n largest rows, largest first, earlier rows
      first among equal amounts. */
  function Largest(rows: seq<Row>, n: nat): seq<Row> {
    SortDesc(rows, Amount)[..Min(n, |rows|)]
  }

  /** The rows `nlargest` leaves out. */
  function Dropped(rows: seq<Row>, n: nat): seq<Row> {
    SortDesc(rows, Amount)[Min(n, |rows|)..]
  }

  /** nlargest keeps the largest amounts: it returns min(n, |rows|) rows, in
      descending order, none smaller than a row it leaves out, and the kept and
      dropped rows together are the input rows. */
  lemma LargestProperties(rows: seq<Row>, n: nat)
    ensures |Largest(rows, n)| == Min(n, |rows|)
    ensures SortedDesc(Largest(rows, n), Amount)
    ensures forall i, j :: 0 <= i < |Largest(rows, n)| && 0 <= j < |Dropped(rows, n)| ==>
      Largest(rows, n)[i].amount >= Dropped(rows, n)[j].amount
    ensures multiset(Largest(rows, n)) + multiset(Dropped(rows, n)) == multiset(rows)
    ensures Total(Largest(rows, n)) + Total(Dropped(rows, n)) == Total(rows)
  {
    SortDescSorted(rows, Amount);
    SortDescSum(rows, Amount, Amount);
    SplitSorted(SortDesc(rows, Amount), Min(n, |rows|));
  }

  /** Cutting a descending sequence in two: the front part is descending, none
      of its rows is smaller than a row of the back part, and the two parts
      together hold the rows and the total of the whole. */
  lemma SplitSorted(s: seq<Row>, m: nat)
    requires m <= |s| && SortedDesc(s, Amount)
    ensures SortedDesc(s[..m], Amount)
    ensures forall i, j :: 0 <= i < m && 0 <= j < |s| - m ==> s[..m][i].amount >= s[m..][j].amount
    ensures multiset(s[..m]) + multiset(s[m..]) == multiset(s)
    ensures Total(s[..m]) + Total(s[m..]) == Total(s)
  {
    assert s == s[..m] + s[m..];
    SumByAppend(s[..m], s[m..], Amount);
    forall i, j | 0 <= i < m && 0 <= j < |s| - m ensures s[..m][i].amount >= s[m..][j].amount {
      assert s[..m][i] == s[i] && s[m..][j] == s[m + j];
    }
  }

  /** The top-n rows followed, when more than n rows were given and the rows
      left out add up to more than zero, by one row holding that sum. */
  function Bucket(rows: seq<Row>, n: nat, otherName: string): seq<Row> {
    var top := Largest(rows, n);
    var other := Total(Dropped(rows, n));
    if |rows| > n && other > 0.0 then top + [Row(otherName, other)] else top
  }

  /** The bucketing as written in the helpers: the "Other" amount is the sum of
      the rows at positions n and later of the input in its own order, whichever
      rows `nlargest` kept. */
  function BucketAsWritten(rows: seq<Row>, n: nat, otherName: string): seq<Row> {
    var top := Largest(rows, n);
    if |rows| > n && Total(rows[n..]) > 0.0 then top + [Row(otherName, Total(rows[n..]))] else top
  }

  /** The bucketed list keeps the n largest rows in descending order and adds at
      most one "Other" row, exactly when more than n rows were given and the rest
      add up to more than zero; in that case, or when nothing was left out, no
      amount is lost or counted twice. */
  lemma BucketProperties(rows: seq<Row>, n: nat, otherName: string)
    ensures var b := Bucket(rows, n, otherName);
      && b[..Min(n, |rows|)] == Largest(rows, n)
      && SortedDesc(b[..Min(n, |rows|)], Amount)
      && (|b| == Min(n, |rows|) + 1 <==> |rows| > n && Total(Dropped(rows, n)) > 0.0)
      && (|b| == Min(n, |rows|) + 1 ==> b[|b| - 1] == Row(otherName, Total(Dropped(rows, n))))
      && |b| <= n + 1
      && (|rows| <= n || Total(Dropped(rows, n)) > 0.0 ==> Total(b) == Total(rows))
  {
    var b := Bucket(rows, n, otherName);
    var top, dropped := Largest(rows, n), Dropped(rows, n);
    assert |top| == Min(n, |rows|) && SortedDesc(top, Amount) && Total(top) + Total(dropped) == Total(rows) by {
      LargestProperties(rows, n);
    }
    if |rows| > n && Total(dropped) > 0.0 {
      var other := Row(otherName, Total(dropped));
      assert b == top + [other];
      assert b[..Min(n, |rows|)] == top;
      SumByAppend(top, [other], Amount);
    } else if |rows| <= n {
      assert dropped == [];
    }
  }

  /** As written, the "Other" row holds the sum of the rows at positions n and
      later of the input. */
  lemma BucketAsWrittenProperties(rows: seq<Row>, n: nat, otherName: string)
    ensures var b := BucketAsWritten(rows, n, otherName);
      && b[..Min(n, |rows|)] == Largest(rows, n)
      && (|b| == Min(n, |rows|) + 1 <==> |rows| > n && Total(rows[n..]) > 0.0)
      && (|b| == Min(n, |rows|) + 1 ==> b[|b| - 1] == Row(otherName, Total(rows[n..])))
  {
    var b := BucketAsWritten(rows, n, otherName);
    LargestProperties(rows, n);
    if |rows| > n && Total(rows[n..]) > 0.0 {
      assert b[..Min(n, |rows|)] == Largest(rows, n);
    }
  }

  /** When the input is already in descending order, as the income table built
      by `calculate_income_sources` is, the code as written and the corrected
      bucketing agree. */
  lemma BucketAsWrittenOnSortedInput(rows: seq<Row>, n: nat, otherName: string)
    requires SortedDesc(rows, Amount)
    ensures BucketAsWritten(rows, n, otherName) == Bucket(rows, n, otherName)
  {
    SortDescOfSorted(rows, Amount);
  }

  /** On input that is not in descending order (category totals come out of the
      group-by in name order) the code as written loses the smaller row and counts
      the larger one twice: 1 + 5 becomes 5 + 5. */
  lemma BucketAsWrittenDoubleCounts()
    ensures var rows := [Row("Groceries", 1.0), Row("Rent", 5.0)];
      && BucketAsWritten(rows, 1, "Other Categories") == [Row("Rent", 5.0), Row("Other Categories", 5.0)]
      && Total(BucketAsWritten(rows, 1, "Other Categories")) == 10.0
      && Total(rows) == 6.0
      && Bucket(rows, 1, "Other Categories") == [Row("Rent", 5.0), Row("Other Categories", 1.0)]
  {
    var rows := [Row("Groceries", 1.0), Row("Rent", 5.0)];
    assert SortDesc(rows[1..], Amount) == [Row("Rent", 5.0)];
    assert SortDesc(rows, Amount) == [Row("Rent", 5.0), Row("Groceries", 1.0)];
    assert rows[1..] == [Row("Rent", 5.0)];
    assert Dropped(rows, 1) == [Row("Groceries", 1.0)];
  }
}
