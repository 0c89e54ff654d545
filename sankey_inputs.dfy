/** The preparation both Sankey builders share: the income, destination and
    category lists cut to their top N with an "Other" row, and the three totals
    the diagram is drawn from. */
module SankeyInputs {
  import opened Tables

  /** A row of the destination-to-category mapping table. */
  datatype MappingRow = MappingRow(destination: string, category: string, amount: real)

  function CategoryRows(mapping: seq<MappingRow>): (rows: seq<Row>)
    ensures |rows| == |mapping|
    ensures forall i :: 0 <= i < |mapping| ==> rows[i] == Row(mapping[i].category, mapping[i].amount)
  {
    seq(|mapping|, i requires 0 <= i < |mapping| => Row(mapping[i].category, mapping[i].amount))
  }

  function GroupRow(g: Group): Row { Row(g.name, g.total) }

  /** `mapping.groupby(category)[amount].sum()`: one row per category, in name order. */
  function CategoryTotals(mapping: seq<MappingRow>): (rows: seq<Row>)
    ensures |rows| == |GroupBy(CategoryRows(mapping))|
  {
    var groups := GroupBy(CategoryRows(mapping));
    seq(|groups|, i requires 0 <= i < |groups| => GroupRow(groups[i]))
  }

  lemma GroupRowsTotal(groups: seq<Group>)
    ensures Total(seq(|groups|, i requires 0 <= i < |groups| => GroupRow(groups[i]))) == SumBy(groups, GroupTotal)
  {
    if groups != [] {
      var rows := seq(|groups|, i requires 0 <= i < |groups| => GroupRow(groups[i]));
      assert rows[1..] == seq(|groups[1..]|, i requires 0 <= i < |groups[1..]| => GroupRow(groups[1..][i]));
      GroupRowsTotal(groups[1..]);
    }
  }

  /** The categories come out once each, in ascending name order. */
  lemma CategoryTotalsOrdered(mapping: seq<MappingRow>)
    ensures var totals := CategoryTotals(mapping);
      forall i, j :: 0 <= i < j < |totals| ==> Strings.StrLess(totals[i].name, totals[j].name)
  {
    var groups := GroupBy(CategoryRows(mapping));
    var totals := CategoryTotals(mapping);
    GroupByProperties(CategoryRows(mapping));
    forall i, j | 0 <= i < j < |totals| ensures Strings.StrLess(totals[i].name, totals[j].name) {
      assert Names(groups)[i] == totals[i].name && Names(groups)[j] == totals[j].name;
    }
  }

  /** The categories the mapping mentions. */
  function Categories(mapping: seq<MappingRow>): set<string> {
    set x | x in mapping :: x.category
  }

  lemma CategoryRowNames(mapping: seq<MappingRow>)
    ensures NameSet(CategoryRows(mapping)) == Categories(mapping)
  {
    var rows := CategoryRows(mapping);
    forall y | y in NameSet(rows) ensures y in Categories(mapping) {
      var row :| row in rows && row.name == y;
      var k :| 0 <= k < |rows| && rows[k] == row;
      assert mapping[k] in mapping;
    }
    forall y | y in Categories(mapping) ensures y in NameSet(rows) {
      var x :| x in mapping && x.category == y;
      var k :| 0 <= k < |mapping| && mapping[k] == x;
      assert rows[k] in rows;
    }
  }

  lemma GroupRowNames(groups: seq<Group>)
    ensures forall y :: y in NameSet(seq(|groups|, i requires 0 <= i < |groups| => GroupRow(groups[i]))) <==> y in Names(groups)
  {
    var rows := seq(|groups|, i requires 0 <= i < |groups| => GroupRow(groups[i]));
    forall y ensures y in NameSet(rows) <==> y in Names(groups) {
      if y in NameSet(rows) {
        var row :| row in rows && row.name == y;
        var i :| 0 <= i < |rows| && rows[i] == row;
        assert Names(groups)[i] == y;
      }
      if y in Names(groups) {
        var i :| 0 <= i < |groups| && Names(groups)[i] == y;
        assert rows[i] in rows;
      }
    }
  }

  /** A category is on the list exactly when some mapping row names it. */
  lemma CategoryTotalsNames(mapping: seq<MappingRow>)
    ensures NameSet(CategoryTotals(mapping)) == Categories(mapping)
  {
    GroupByProperties(CategoryRows(mapping));
    GroupRowNames(GroupBy(CategoryRows(mapping)));
    CategoryRowNames(mapping);
  }

  /** Each category carries the sum of its mapping rows, and nothing is lost:
      the category totals add up to the mapping's total. */
  lemma CategoryTotalsSums(mapping: seq<MappingRow>)
    ensures var totals := CategoryTotals(mapping);
      && (forall i :: 0 <= i < |totals| ==> totals[i].amount == SumFor(CategoryRows(mapping), totals[i].name))
      && Total(totals) == Total(CategoryRows(mapping))
  {
    var rows := CategoryRows(mapping);
    var groups := GroupBy(rows);
    GroupByProperties(rows);
    GroupRowsTotal(groups);
    forall i | 0 <= i < |groups| ensures groups[i].total == SumFor(rows, groups[i].name) {
      assert groups[i] in groups;
    }
  }

  /** The guarded percentage both helpers show: `(amount / total * 100) if total > 0 else 0`. */
  function Share(amount: real, total: real): (p: real)
    ensures total <= 0.0 ==> p == 0.0
    ensures total > 0.0 ==> p * total == amount * 100.0
  {
    if total > 0.0 then amount / total * 100.0 else 0.0
  }

  /** The three bucketed lists and the totals taken from them. */
  datatype Buckets = Buckets(income: seq<Row>, destinations: seq<Row>, categories: seq<Row>,
                             totalIncome: real, totalExpenses: real, remaining: real)

  /** Lines 44-82 of both helpers, with the "Other" amount taken from the rows
      `nlargest` left out. */
  function Prepare(income: seq<Row>, destinations: seq<Row>, mapping: seq<MappingRow>,
                   topNIncome: nat, topNDestination: nat, topNCategory: nat): (b: Buckets)
    ensures b.income == Bucket(income, topNIncome, "Other Income")
    ensures b.destinations == Bucket(destinations, topNDestination, "Other Destinations")
    ensures b.categories == Bucket(CategoryTotals(mapping), topNCategory, "Other Categories")
    ensures b.totalIncome == Total(b.income) && b.totalExpenses == Total(b.destinations)
    ensures b.remaining == b.totalIncome - b.totalExpenses
  {
    var topIncome := Bucket(income, topNIncome, "Other Income");
    var topDestinations := Bucket(destinations, topNDestination, "Other Destinations");
    var topCategories := Bucket(CategoryTotals(mapping), topNCategory, "Other Categories");
    var totalIncome := Total(topIncome);
    var totalExpenses := Total(topDestinations);
    Buckets(topIncome, topDestinations, topCategories, totalIncome, totalExpenses, totalIncome - totalExpenses)
  }

  /** The totals are the input totals whenever the dropped rows add up to more
      than zero or nothing was dropped; the remaining amount is then income minus
      spending over all rows. */
  lemma PrepareTotals(income: seq<Row>, destinations: seq<Row>, mapping: seq<MappingRow>,
                      topNIncome: nat, topNDestination: nat, topNCategory: nat)
    requires |income| <= topNIncome || Total(Dropped(income, topNIncome)) > 0.0
    requires |destinations| <= topNDestination || Total(Dropped(destinations, topNDestination)) > 0.0
    ensures var b := Prepare(income, destinations, mapping, topNIncome, topNDestination, topNCategory);
      && b.totalIncome == Total(income)
      && b.totalExpenses == Total(destinations)
      && b.remaining == Total(income) - Total(destinations)
  {
    BucketProperties(income, topNIncome, "Other Income");
    BucketProperties(destinations, topNDestination, "Other Destinations");
  }

  /** Lines 44-82 of both helpers as written: each "Other" amount is the sum of
      the rows at positions N and later of the input, in its own order. */
  function PrepareAsWritten(income: seq<Row>, destinations: seq<Row>, mapping: seq<MappingRow>,
                            topNIncome: nat, topNDestination: nat, topNCategory: nat): (b: Buckets)
    ensures b.income == BucketAsWritten(income, topNIncome, "Other Income")
    ensures b.destinations == BucketAsWritten(destinations, topNDestination, "Other Destinations")
    ensures b.categories == BucketAsWritten(CategoryTotals(mapping), topNCategory, "Other Categories")
    ensures b.totalIncome == Total(b.income) && b.totalExpenses == Total(b.destinations)
    ensures b.remaining == b.totalIncome - b.totalExpenses
  {
    var topIncome := BucketAsWritten(income, topNIncome, "Other Income");
    var topDestinations := BucketAsWritten(destinations, topNDestination, "Other Destinations");
    var topCategories := BucketAsWritten(CategoryTotals(mapping), topNCategory, "Other Categories");
    var totalIncome := Total(topIncome);
    var totalExpenses := Total(topDestinations);
    Buckets(topIncome, topDestinations, topCategories, totalIncome, totalExpenses, totalIncome - totalExpenses)
  }

  /** When the income and destination tables arrive largest first, the
      preparation as written and the corrected one agree on those two lists and
      on all three totals; only the category list, which the group-by returns in
      name order, can differ. */
  lemma PrepareAsWrittenOnSortedInput(income: seq<Row>, destinations: seq<Row>, mapping: seq<MappingRow>,
                                      topNIncome: nat, topNDestination: nat, topNCategory: nat)
    requires SortedDesc(income, Amount) && SortedDesc(destinations, Amount)
    ensures var w := PrepareAsWritten(income, destinations, mapping, topNIncome, topNDestination, topNCategory);
      var c := Prepare(income, destinations, mapping, topNIncome, topNDestination, topNCategory);
      && w.income == c.income && w.destinations == c.destinations
      && w.totalIncome == c.totalIncome && w.totalExpenses == c.totalExpenses && w.remaining == c.remaining
  {
    BucketAsWrittenOnSortedInput(income, topNIncome, "Other Income");
    BucketAsWrittenOnSortedInput(destinations, topNDestination, "Other Destinations");
  }

  /** The category list is where the two differ: the group-by puts Groceries (1)
      before Rent (5), so with one category kept the code as written reports
      "Other Categories" as 5 where the rows left out add up to 1. */
  lemma PrepareAsWrittenCategoriesDiffer()
    ensures var mapping := [MappingRow("Card", "Rent", 5.0), MappingRow("Cash", "Groceries", 1.0)];
      && PrepareAsWritten([], [], mapping, 0, 0, 1).categories == [Row("Rent", 5.0), Row("Other Categories", 5.0)]
      && Prepare([], [], mapping, 0, 0, 1).categories == [Row("Rent", 5.0), Row("Other Categories", 1.0)]
  {
    var mapping := [MappingRow("Card", "Rent", 5.0), MappingRow("Cash", "Groceries", 1.0)];
    var rows := CategoryRows(mapping);
    assert rows == [Row("Rent", 5.0), Row("Groceries", 1.0)];
    assert rows[1..] == [Row("Groceries", 1.0)];
    assert SortedNames(rows[1..]) == ["Groceries"];
    assert !Strings.StrLess("Rent", "Groceries");
    var groceries: seq<string> := ["Groceries"];
    assert groceries[1..] == [];
    assert InsertName("Rent", groceries) == ["Groceries", "Rent"];
    assert SortedNames(rows) == ["Groceries", "Rent"];
    assert rows[1..][1..] == [];
    assert SumFor(rows[1..], "Groceries") == 1.0 && SumFor(rows[1..], "Rent") == 0.0;
    assert SumFor(rows, "Groceries") == 1.0 && SumFor(rows, "Rent") == 5.0;
    assert CountFor(rows[1..], "Groceries") == 1 && CountFor(rows[1..], "Rent") == 0;
    assert CategoryTotals(mapping) == [Row("Groceries", 1.0), Row("Rent", 5.0)];
    BucketAsWrittenDoubleCounts();
  }

  /** The mapping rows whose destination and category are both on the diagram,
      in table order. */
  function FilteredMapping(mapping: seq<MappingRow>, destNames: set<string>, catNames: set<string>): (r: seq<MappingRow>)
    ensures |r| <= |mapping|
    ensures forall x :: x in r <==> x in mapping && x.destination in destNames && x.category in catNames
  {
    if mapping == [] then []
    else
      assert mapping == [mapping[0]] + mapping[1..];
      var keep := mapping[0].destination in destNames && mapping[0].category in catNames;
      (if keep then [mapping[0]] else []) + FilteredMapping(mapping[1..], destNames, catNames)
  }
}
