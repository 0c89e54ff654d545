/** The data behind `create_sankey_with_destinations`: node labels at fixed
    indices, the parallel source/target/value link lists, the node and link
    colours, and the node positions of the five-layer cash-flow diagram. Unlike
    the D3 variant, the remaining node is always in the node list, and only its
    link depends on whether something remains. */
module PlotlySankey {
  import opened Common
  import opened Tables
  import opened SankeyInputs

  const TotalIncomeName := "💰 Total Income"
  const RemainingName := "💎 Remaining"
  const TotalExpensesName := "💸 Total Expenses"

  /** A node label: the name, the amount and the percentage it shows. None is
      the non-finite value an unguarded division by a zero total gives. */
  datatype NodeLabel = NodeLabel(name: string, amount: real, percent: Option<real>)

  /** `amt / total * 100`, not guarded. */
  function Ratio(amount: real, total: real): (p: Option<real>)
    ensures p.None? <==> total == 0.0
    ensures p.Some? ==> p.value * total == amount * 100.0
  {
    if total == 0.0 then None else Some(amount / total * 100.0)
  }

  function LayerLabels(rows: seq<Row>, total: real): (labels: seq<NodeLabel>)
    ensures |labels| == |rows|
    ensures forall i :: 0 <= i < |rows| ==>
      labels[i] == NodeLabel(rows[i].name, rows[i].amount, Ratio(rows[i].amount, total))
  {
    seq(|rows|, i requires 0 <= i < |rows| => NodeLabel(rows[i].name, rows[i].amount, Ratio(rows[i].amount, total)))
  }

  /** The fixed index layout. */
  function TotalIncomeIdx(b: Buckets): nat { |b.income| }
  function RemainingIdx(b: Buckets): nat { |b.income| + 1 }
  function TotalExpensesIdx(b: Buckets): nat { |b.income| + 2 }
  function FirstDestIdx(b: Buckets): nat { |b.income| + 3 }
  function FirstCategoryIdx(b: Buckets): nat { FirstDestIdx(b) + |b.destinations| }
  function LabelCount(b: Buckets): nat { FirstCategoryIdx(b) + |b.categories| }

  /** `all_labels`: income sources, total income, remaining (always), total
      expenses, destinations and categories. */
  function AllLabels(b: Buckets): (labels: seq<NodeLabel>)
    ensures |labels| == LabelCount(b)
    ensures labels[TotalIncomeIdx(b)] == NodeLabel(TotalIncomeName, b.totalIncome, Some(100.0))
    ensures labels[RemainingIdx(b)].name == RemainingName && labels[RemainingIdx(b)].amount == b.remaining
    ensures labels[TotalExpensesIdx(b)].name == TotalExpensesName && labels[TotalExpensesIdx(b)].amount == b.totalExpenses
    ensures forall i :: 0 <= i < |b.income| ==> labels[i].name == b.income[i].name
    ensures forall i :: 0 <= i < |b.destinations| ==> labels[FirstDestIdx(b) + i].name == b.destinations[i].name
    ensures forall i :: 0 <= i < |b.categories| ==> labels[FirstCategoryIdx(b) + i].name == b.categories[i].name
  {
    var labels :=
      LayerLabels(b.income, b.totalIncome)
      + [NodeLabel(TotalIncomeName, b.totalIncome, Some(100.0))]
      + [NodeLabel(RemainingName, b.remaining, Some(Share(b.remaining, b.totalIncome))),
         NodeLabel(TotalExpensesName, b.totalExpenses, Some(Share(b.totalExpenses, b.totalIncome)))]
      + LayerLabels(b.destinations, b.totalExpenses)
      + LayerLabels(b.categories, b.totalExpenses);
    assert forall i :: 0 <= i < |b.destinations| ==> labels[FirstDestIdx(b) + i] == LayerLabels(b.destinations, b.totalExpenses)[i];
    assert forall i :: 0 <= i < |b.categories| ==> labels[FirstCategoryIdx(b) + i] == LayerLabels(b.categories, b.totalExpenses)[i];
    labels
  }

  function RowNames(rows: seq<Row>): (names: seq<string>)
    ensures |names| == |rows|
    ensures forall i :: 0 <= i < |rows| ==> names[i] == rows[i].name
  {
    seq(|rows|, i requires 0 <= i < |rows| => rows[i].name)
  }

  /** `{name: idx for idx, name in enumerate(names)}`: each name maps to its
      last position. */
  function PositionMap(names: seq<string>): (m: map<string, nat>)
    ensures forall y :: y in m <==> y in names
    ensures forall y :: y in m ==> m[y] < |names| && names[m[y]] == y
    ensures forall j :: 0 <= j < |names| ==> j <= m[names[j]]
  {
    if names == [] then map[]
    else
      var m := PositionMap(names[..|names| - 1]);
      var m' := m[names[|names| - 1] := |names| - 1];
      PositionStep(names[..|names| - 1], names[|names| - 1], m, m');
      assert names == names[..|names| - 1] + [names[|names| - 1]];
      m'
  }

  /** Recording the last name's position extends an index map of the other names. */
  lemma PositionStep(init: seq<string>, last: string, m: map<string, nat>, m': map<string, nat>)
    requires m' == m[last := |init|]
    requires forall y :: y in m <==> y in init
    requires forall y :: y in m ==> m[y] < |init| && init[m[y]] == y
    requires forall j :: 0 <= j < |init| ==> j <= m[init[j]]
    ensures forall y :: y in m' <==> y in init + [last]
    ensures forall y :: y in m' ==> m'[y] < |init| + 1 && (init + [last])[m'[y]] == y
    ensures forall j :: 0 <= j < |init| + 1 ==> j <= m'[(init + [last])[j]]
  {
  }

  /** The three parallel link lists. */
  datatype LinkLists = LinkLists(sources: seq<nat>, targets: seq<nat>, values: seq<real>)

  /** The number of links: one per income source, one to remaining when
      something remains, one to total expenses, one per destination and one per
      filtered mapping row. */
  function LinkCount(b: Buckets, filtered: seq<MappingRow>): nat {
    |b.income| + (if b.remaining > 0.0 then 1 else 0) + 1 + |b.destinations| + |filtered|
  }

  /** Phase 1: income source i flows into total income with its amount. */
  ghost predicate IncomeLinksOk(b: Buckets, sources: seq<nat>, targets: seq<nat>, values: seq<real>) {
    && |sources| == |b.income| && |targets| == |b.income| && |values| == |b.income|
    && forall i :: 0 <= i < |b.income| ==>
      sources[i] == i && targets[i] == TotalIncomeIdx(b) && values[i] == b.income[i].amount
  }

  /** Phases 2 and 3: total income into remaining, only when something
      remains, then total income into total expenses. */
  ghost predicate HubLinksOk(b: Buckets, sources: seq<nat>, targets: seq<nat>, values: seq<real>) {
    if b.remaining > 0.0 then
      && sources == [TotalIncomeIdx(b), TotalIncomeIdx(b)]
      && targets == [RemainingIdx(b), TotalExpensesIdx(b)]
      && values == [b.remaining, b.totalExpenses]
    else
      sources == [TotalIncomeIdx(b)] && targets == [TotalExpensesIdx(b)] && values == [b.totalExpenses]
  }

  /** Phase 4: total expenses flows out to destination i with its amount. */
  ghost predicate DestLinksOk(b: Buckets, sources: seq<nat>, targets: seq<nat>, values: seq<real>) {
    && |sources| == |b.destinations| && |targets| == |b.destinations| && |values| == |b.destinations|
    && forall i :: 0 <= i < |b.destinations| ==>
      && sources[i] == TotalExpensesIdx(b) && targets[i] == FirstDestIdx(b) + i
      && values[i] == b.destinations[i].amount
  }

  /** Phases 1 to 4, whose links the layout fixes, one after the other. */
  ghost predicate FixedPhasesOk(b: Buckets, sources: seq<nat>, targets: seq<nat>, values: seq<real>) {
    var k := |b.income|;
    var h := LinkCount(b, []);
    var m := k + (if b.remaining > 0.0 then 2 else 1);
    && |sources| == h && |targets| == h && |values| == h
    && IncomeLinksOk(b, sources[..k], targets[..k], values[..k])
    && HubLinksOk(b, sources[k..m], targets[k..m], values[k..m])
    && DestLinksOk(b, sources[m..], targets[m..], values[m..])
  }

  /** `p` is the last position of a layer holding a row named `y`: the one a
      `{name: idx for idx, name in enumerate(...)}` dictionary keeps. */
  ghost predicate LastPosition(rows: seq<Row>, y: string, p: int) {
    && 0 <= p < |rows| && rows[p].name == y
    && forall k :: p < k < |rows| ==> rows[k].name != y
  }

  /** A name has at most one last position. */
  lemma LastPositionUnique(rows: seq<Row>, y: string, p: int, q: int)
    requires LastPosition(rows, y, p) && LastPosition(rows, y, q)
    ensures p == q
  {
  }

  /** Phase 5: link j runs from the destination node to the category node at
      the last positions carrying mapping row j's names, with its amount. */
  ghost predicate MappingPhaseOk(b: Buckets, filtered: seq<MappingRow>, sources: seq<nat>, targets: seq<nat>, values: seq<real>) {
    && |sources| == |filtered| && |targets| == |filtered| && |values| == |filtered|
    && forall j :: 0 <= j < |filtered| ==>
      && FirstDestIdx(b) <= sources[j]
      && LastPosition(b.destinations, filtered[j].destination, sources[j] - FirstDestIdx(b))
      && FirstCategoryIdx(b) <= targets[j]
      && LastPosition(b.categories, filtered[j].category, targets[j] - FirstCategoryIdx(b))
      && values[j] == filtered[j].amount
  }

  /** Phase 5 uses exactly the positions the two index dictionaries give. */
  lemma MappingPhaseUsesIndexMaps(b: Buckets, filtered: seq<MappingRow>, sources: seq<nat>, targets: seq<nat>, values: seq<real>)
    requires MappingPhaseOk(b, filtered, sources, targets, values)
    ensures forall j :: 0 <= j < |filtered| ==>
      && filtered[j].destination in PositionMap(RowNames(b.destinations))
      && sources[j] == FirstDestIdx(b) + PositionMap(RowNames(b.destinations))[filtered[j].destination]
      && filtered[j].category in PositionMap(RowNames(b.categories))
      && targets[j] == FirstCategoryIdx(b) + PositionMap(RowNames(b.categories))[filtered[j].category]
  {
    forall j | 0 <= j < |filtered|
      ensures && filtered[j].destination in PositionMap(RowNames(b.destinations))
              && sources[j] == FirstDestIdx(b) + PositionMap(RowNames(b.destinations))[filtered[j].destination]
              && filtered[j].category in PositionMap(RowNames(b.categories))
              && targets[j] == FirstCategoryIdx(b) + PositionMap(RowNames(b.categories))[filtered[j].category]
    {
      var d, c := filtered[j].destination, filtered[j].category;
      var p, q := sources[j] - FirstDestIdx(b), targets[j] - FirstCategoryIdx(b);
      assert b.destinations[p] in b.destinations && b.categories[q] in b.categories;
      PositionIff(b.destinations, d);
      PositionIff(b.categories, c);
      LastPositionUnique(b.destinations, d, p, PositionMap(RowNames(b.destinations))[d]);
      LastPositionUnique(b.categories, c, q, PositionMap(RowNames(b.categories))[c]);
    }
  }

  /** The link lists, phase by phase. */
  ghost predicate LinksFollowFlow(b: Buckets, filtered: seq<MappingRow>, l: LinkLists) {
    var h := LinkCount(b, []);
    && |l.sources| == LinkCount(b, filtered) && |l.targets| == LinkCount(b, filtered) && |l.values| == LinkCount(b, filtered)
    && FixedPhasesOk(b, l.sources[..h], l.targets[..h], l.values[..h])
    && MappingPhaseOk(b, filtered, l.sources[h..], l.targets[h..], l.values[h..])
  }

  lemma ConcatSlices<T>(x: seq<T>, y: seq<T>, z: seq<T>)
    ensures (x + y + z)[..|x|] == x && (x + y + z)[|x|..|x| + |y|] == y && (x + y + z)[|x| + |y|..] == z
  {
  }

  /** Phase 1 (lines 126-130). */
  method IncomeLinks(b: Buckets) returns (sources: seq<nat>, targets: seq<nat>, values: seq<real>)
    ensures IncomeLinksOk(b, sources, targets, values)
  {
    sources, targets, values := [], [], [];
    var i := 0;
    while i < |b.income|
      invariant 0 <= i <= |b.income|
      invariant |sources| == i && |targets| == i && |values| == i
      invariant forall j :: 0 <= j < i ==> sources[j] == j && targets[j] == TotalIncomeIdx(b) && values[j] == b.income[j].amount
    {
      sources, targets, values := sources + [i], targets + [TotalIncomeIdx(b)], values + [b.income[i].amount];
      i := i + 1;
    }
  }

  /** Phase 4 (lines 146-151). */
  method DestLinks(b: Buckets) returns (sources: seq<nat>, targets: seq<nat>, values: seq<real>)
    ensures DestLinksOk(b, sources, targets, values)
  {
    sources, targets, values := [], [], [];
    var i := 0;
    while i < |b.destinations|
      invariant 0 <= i <= |b.destinations|
      invariant |sources| == i && |targets| == i && |values| == i
      invariant forall j :: 0 <= j < i ==>
        && sources[j] == TotalExpensesIdx(b) && targets[j] == FirstDestIdx(b) + j
        && values[j] == b.destinations[j].amount
    {
      sources, targets, values := sources + [TotalExpensesIdx(b)], targets + [FirstDestIdx(b) + i], values + [b.destinations[i].amount];
      i := i + 1;
    }
  }

  /** Phases 1 to 4 (lines 126-151). */
  method FixedLinks(b: Buckets) returns (l: LinkLists)
    ensures FixedPhasesOk(b, l.sources, l.targets, l.values)
  {
    var incS, incT, incV := IncomeLinks(b);
    var hubS: seq<nat>, hubT: seq<nat>, hubV: seq<real>;
    if b.remaining > 0.0 {
      hubS, hubT, hubV := [TotalIncomeIdx(b), TotalIncomeIdx(b)], [RemainingIdx(b), TotalExpensesIdx(b)], [b.remaining, b.totalExpenses];
    } else {
      hubS, hubT, hubV := [TotalIncomeIdx(b)], [TotalExpensesIdx(b)], [b.totalExpenses];
    }
    var destS, destT, destV := DestLinks(b);
    ConcatSlices(incS, hubS, destS);
    ConcatSlices(incT, hubT, destT);
    ConcatSlices(incV, hubV, destV);
    l := LinkLists(incS + hubS + destS, incT + hubT + destT, incV + hubV + destV);
  }

  /** Appending one phase-5 link keeps the lists in step with the rows. */
  lemma MappingPhaseStep(b: Buckets, done: seq<MappingRow>, row: MappingRow,
                         sources: seq<nat>, targets: seq<nat>, values: seq<real>, destIdx: nat, catIdx: nat)
    requires MappingPhaseOk(b, done, sources, targets, values)
    requires FirstDestIdx(b) <= destIdx && LastPosition(b.destinations, row.destination, destIdx - FirstDestIdx(b))
    requires FirstCategoryIdx(b) <= catIdx && LastPosition(b.categories, row.category, catIdx - FirstCategoryIdx(b))
    ensures MappingPhaseOk(b, done + [row], sources + [destIdx], targets + [catIdx], values + [row.amount])
  {
    var filtered := done + [row];
    forall j | 0 <= j < |done| ensures filtered[j] == done[j] { }
  }

  /** The two ends of one phase-5 link: the label positions of the last
      destination and the last category carrying the row's names, when both are
      on the diagram. */
  method MappingEnds(b: Buckets, destIndex: map<string, nat>, catIndex: map<string, nat>, row: MappingRow)
    returns (ends: Option<(nat, nat)>)
    requires Indexes(destIndex, b.destinations) && Indexes(catIndex, b.categories)
    ensures ends.Some? <==> row.destination in NameSet(b.destinations) && row.category in NameSet(b.categories)
    ensures ends.Some? ==>
      && FirstDestIdx(b) <= ends.value.0 < FirstCategoryIdx(b)
      && LastPosition(b.destinations, row.destination, ends.value.0 - FirstDestIdx(b))
      && FirstCategoryIdx(b) <= ends.value.1 < LabelCount(b)
      && LastPosition(b.categories, row.category, ends.value.1 - FirstCategoryIdx(b))
  {
    if row.destination in destIndex && row.category in catIndex {
      ends := Some((FirstDestIdx(b) + destIndex[row.destination], FirstCategoryIdx(b) + catIndex[row.category]));
    } else {
      ends := None;
    }
  }

  lemma PrefixExtend<T>(s: seq<T>, i: nat)
    requires i < |s|
    ensures s[..i + 1] == s[..i] + [s[i]]
  {
  }

  /** One step of phase 5: the link of the next filtered row. */
  method AddMappingLink(b: Buckets, destIndex: map<string, nat>, catIndex: map<string, nat>, done: seq<MappingRow>,
                        row: MappingRow, sources: seq<nat>, targets: seq<nat>, values: seq<real>)
    returns (sources': seq<nat>, targets': seq<nat>, values': seq<real>)
    requires Indexes(destIndex, b.destinations) && Indexes(catIndex, b.categories)
    requires MappingPhaseOk(b, done, sources, targets, values)
    requires row.destination in NameSet(b.destinations) && row.category in NameSet(b.categories)
    ensures MappingPhaseOk(b, done + [row], sources', targets', values')
  {
    var ends := MappingEnds(b, destIndex, catIndex, row);
    if ends.None? {
      // Unreachable: every filtered row names a destination and a category on the diagram.
      assert false;
    } else {
      var destIdx, catIdx := ends.value.0, ends.value.1;
      MappingPhaseStep(b, done, row, sources, targets, values, destIdx, catIdx);
      sources', targets', values' := sources + [destIdx], targets + [catIdx], values + [row.amount];
    }
  }

  /** Phase 5 (lines 153-181): a link for every filtered mapping row whose
      destination and category both have a position; rows without one are
      skipped. */
  method MappingPhase(b: Buckets, filtered: seq<MappingRow>) returns (sources: seq<nat>, targets: seq<nat>, values: seq<real>)
    requires forall x :: x in filtered ==> x.destination in NameSet(b.destinations) && x.category in NameSet(b.categories)
    ensures MappingPhaseOk(b, filtered, sources, targets, values)
  {
    var destIndex := PositionMap(RowNames(b.destinations));
    var catIndex := PositionMap(RowNames(b.categories));
    PositionIndexes(b.destinations);
    PositionIndexes(b.categories);
    sources, targets, values := [], [], [];
    var i := 0;
    while i < |filtered|
      invariant 0 <= i <= |filtered|
      invariant MappingPhaseOk(b, filtered[..i], sources, targets, values)
    {
      var row := filtered[i];
      assert row in filtered;
      sources, targets, values := AddMappingLink(b, destIndex, catIndex, filtered[..i], row, sources, targets, values);
      PrefixExtend(filtered, i);
      i := i + 1;
    }
    assert filtered[..i] == filtered;
  }

  /** Phases 1 to 4 followed by phase 5. */
  method MappingLinks(b: Buckets, filtered: seq<MappingRow>, l: LinkLists) returns (l': LinkLists)
    requires FixedPhasesOk(b, l.sources, l.targets, l.values)
    requires forall x :: x in filtered ==> x.destination in NameSet(b.destinations) && x.category in NameSet(b.categories)
    ensures LinksFollowFlow(b, filtered, l')
  {
    var mS, mT, mV := MappingPhase(b, filtered);
    ConcatSlices(l.sources, mS, []);
    ConcatSlices(l.targets, mT, []);
    ConcatSlices(l.values, mV, []);
    l' := LinkLists(l.sources + mS, l.targets + mT, l.values + mV);
  }

  /** `m` indexes a layer: it has a position exactly for the layer's names, and
      each is the last position holding a row of that name. */
  ghost predicate Indexes(m: map<string, nat>, rows: seq<Row>) {
    forall y :: (y in m <==> y in NameSet(rows)) && (y in m ==> LastPosition(rows, y, m[y]))
  }

  /** The index map of a layer indexes it. */
  lemma PositionIndexes(rows: seq<Row>)
    ensures Indexes(PositionMap(RowNames(rows)), rows)
  {
    forall y {
      PositionIff(rows, y);
    }
  }

  /** A name has a position in a layer's index map exactly when the layer has a
      row of that name, and the position is the last one holding such a row. */
  lemma PositionIff(rows: seq<Row>, y: string)
    ensures y in PositionMap(RowNames(rows)) <==> y in NameSet(rows)
    ensures y in PositionMap(RowNames(rows)) ==> LastPosition(rows, y, PositionMap(RowNames(rows))[y])
  {
    var m := PositionMap(RowNames(rows));
    if y in NameSet(rows) {
      var row :| row in rows && row.name == y;
      var i :| 0 <= i < |rows| && rows[i] == row;
      assert RowNames(rows)[i] == y;
    }
    if y in m {
      assert RowNames(rows)[m[y]] == y;
      assert rows[m[y]] in rows;
      forall k | m[y] < k < |rows| ensures rows[k].name != y {
        assert RowNames(rows)[k] == rows[k].name;
      }
    }
  }

  /** Lines 125-181: the link lists for the bucketed tables and the mapping. */
  method BuildLinks(b: Buckets, mapping: seq<MappingRow>) returns (l: LinkLists)
    ensures LinksFollowFlow(b, FilteredMapping(mapping, NameSet(b.destinations), NameSet(b.categories)), l)
  {
    l := FixedLinks(b);
    var filtered := FilteredMapping(mapping, NameSet(b.destinations), NameSet(b.categories));
    l := MappingLinks(b, filtered, l);
  }

  /** Every index of a list is below n. */
  predicate Below(xs: seq<nat>, n: nat) {
    forall i :: 0 <= i < |xs| ==> xs[i] < n
  }

  lemma BelowSplit3(xs: seq<nat>, k: nat, m: nat, n: nat)
    requires k <= m <= |xs|
    requires Below(xs[..k], n) && Below(xs[k..m], n) && Below(xs[m..], n)
    ensures Below(xs, n)
  {
    forall i | 0 <= i < |xs| ensures xs[i] < n {
      if i < k {
        assert xs[..k][i] == xs[i];
      } else if i < m {
        assert xs[k..m][i - k] == xs[i];
      } else {
        assert xs[m..][i - m] == xs[i];
      }
    }
  }

  /** Phases 1 to 4 only join labels. */
  lemma FixedPhasesInRange(b: Buckets, sources: seq<nat>, targets: seq<nat>, values: seq<real>)
    requires FixedPhasesOk(b, sources, targets, values)
    ensures Below(sources, LabelCount(b)) && Below(targets, LabelCount(b))
  {
    var k := |b.income|;
    var m := k + (if b.remaining > 0.0 then 2 else 1);
    BelowSplit3(sources, k, m, LabelCount(b));
    BelowSplit3(targets, k, m, LabelCount(b));
  }

  /** Phase 5 only joins labels. */
  lemma MappingPhaseInRange(b: Buckets, filtered: seq<MappingRow>, sources: seq<nat>, targets: seq<nat>, values: seq<real>)
    requires MappingPhaseOk(b, filtered, sources, targets, values)
    ensures Below(sources, LabelCount(b)) && Below(targets, LabelCount(b))
  {
  }

  /** Every link joins two labels: all indices are below the number of labels,
      and the three lists have equal length. */
  lemma LinksInRange(b: Buckets, filtered: seq<MappingRow>, l: LinkLists)
    requires LinksFollowFlow(b, filtered, l)
    ensures |l.sources| == |l.targets| == |l.values| == LinkCount(b, filtered)
    ensures forall i :: 0 <= i < |l.sources| ==> l.sources[i] < LabelCount(b) && l.targets[i] < LabelCount(b)
  {
    var h := LinkCount(b, []);
    FixedPhasesInRange(b, l.sources[..h], l.targets[..h], l.values[..h]);
    MappingPhaseInRange(b, filtered, l.sources[h..], l.targets[h..], l.values[h..]);
    assert l.sources[..h] == l.sources[..h][..h] && l.targets[..h] == l.targets[..h][..h];
    BelowSplit3(l.sources, h, h, LabelCount(b));
    BelowSplit3(l.targets, h, h, LabelCount(b));
  }

  // ---------------------------------------------------------------------------
  // Colours

  const IncomeColor := "rgba(74, 222, 128, 0.85)"
  const TotalIncomeColor := "rgba(59, 130, 246, 0.9)"
  const RemainingColor := "rgba(34, 197, 94, 0.9)"
  const DeficitColor := "rgba(239, 68, 68, 0.9)"
  const TotalExpensesColor := "rgba(251, 146, 60, 0.9)"
  const DestinationColor := "rgba(255, 193, 7, 0.85)"
  const CategoryColor := "rgba(248, 113, 113, 0.85)"

  const IncomeLinkColor := "rgba(74, 222, 128, 0.4)"
  const RemainingLinkColor := "rgba(34, 197, 94, 0.5)"
  const TotalExpensesLinkColor := "rgba(251, 146, 60, 0.4)"
  const DestinationLinkColor := "rgba(255, 193, 7, 0.4)"
  const CategoryLinkColor := "rgba(248, 113, 113, 0.4)"

  /** `[c] * n`. */
  function Repeat(c: string, n: nat): (s: seq<string>)
    ensures |s| == n && forall i :: 0 <= i < n ==> s[i] == c
  {
    seq(n, _ => c)
  }

  /** One colour per label; the remaining node is green when something remains
      and red otherwise. */
  function NodeColors(b: Buckets): (colors: seq<string>)
    ensures |colors| == LabelCount(b)
    ensures forall i :: 0 <= i < |b.income| ==> colors[i] == IncomeColor
    ensures colors[TotalIncomeIdx(b)] == TotalIncomeColor
    ensures colors[RemainingIdx(b)] == RemainingColor <==> b.remaining > 0.0
    ensures colors[RemainingIdx(b)] == DeficitColor <==> b.remaining <= 0.0
    ensures colors[TotalExpensesIdx(b)] == TotalExpensesColor
    ensures forall i :: FirstDestIdx(b) <= i < FirstCategoryIdx(b) ==> colors[i] == DestinationColor
    ensures forall i :: FirstCategoryIdx(b) <= i < LabelCount(b) ==> colors[i] == CategoryColor
  {
    var colors := Repeat(IncomeColor, |b.income|) + [TotalIncomeColor]
      + [if b.remaining > 0.0 then RemainingColor else DeficitColor] + [TotalExpensesColor]
      + Repeat(DestinationColor, |b.destinations|) + Repeat(CategoryColor, |b.categories|);
    assert RemainingColor != DeficitColor;
    colors
  }

  /** One colour per link, in the link order. */
  function LinkColors(b: Buckets, filtered: seq<MappingRow>): (colors: seq<string>)
    ensures |colors| == LinkCount(b, filtered)
  {
    Repeat(IncomeLinkColor, |b.income|) + (if b.remaining > 0.0 then [RemainingLinkColor] else [])
    + [TotalExpensesLinkColor] + Repeat(DestinationLinkColor, |b.destinations|)
    + Repeat(CategoryLinkColor, |filtered|)
  }

  // ---------------------------------------------------------------------------
  // Positions

  /** The y position of node i of a layer of n destination or category nodes. */
  function SpreadY(i: nat, n: nat): (y: real)
    requires i < n
    ensures 0.2 <= y <= 0.95 || (n == 1 && y == 0.5)
  {
    if n > 1 then 0.2 + (i as real / (n - 1) as real) * 0.75 else 0.5
  }

  /** The y position of income node i of n. */
  function IncomeY(i: nat, n: nat): (y: real)
    requires i < n
    ensures 0.0 <= y <= 1.0
  {
    var denominator := if 1 < n - 1 then n - 1 else 1;
    if n > 1 then i as real / denominator as real else 0.5
  }

  /** Lines 202-238: x is fixed per layer; income nodes lie in [0, 1],
      destinations and categories in [0.2, 0.95], or at 0.5 when alone. */
  method NodePositions(b: Buckets) returns (xs: seq<real>, ys: seq<real>)
    ensures |xs| == LabelCount(b) && |ys| == LabelCount(b)
    ensures forall i :: 0 <= i < |b.income| ==> xs[i] == 0.01 && 0.0 <= ys[i] <= 1.0
    ensures xs[TotalIncomeIdx(b)] == 0.25 && ys[TotalIncomeIdx(b)] == 0.5
    ensures xs[RemainingIdx(b)] == 0.50 && ys[RemainingIdx(b)] == 0.05
    ensures xs[TotalExpensesIdx(b)] == 0.50 && ys[TotalExpensesIdx(b)] == 0.5
    ensures forall i :: FirstDestIdx(b) <= i < FirstCategoryIdx(b) ==>
      xs[i] == 0.75 && (0.2 <= ys[i] <= 0.95 || (|b.destinations| == 1 && ys[i] == 0.5))
    ensures forall i :: FirstCategoryIdx(b) <= i < LabelCount(b) ==>
      xs[i] == 0.99 && (0.2 <= ys[i] <= 0.95 || (|b.categories| == 1 && ys[i] == 0.5))
  {
    var numIncome := |b.income|;
    xs, ys := [], [];
    var i := 0;
    while i < numIncome
      invariant 0 <= i <= numIncome && |xs| == i && |ys| == i
      invariant forall j :: 0 <= j < i ==> xs[j] == 0.01 && 0.0 <= ys[j] <= 1.0
    {
      xs, ys := xs + [0.01], ys + [IncomeY(i, numIncome)];
      i := i + 1;
    }
    xs, ys := xs + [0.25], ys + [0.5];
    xs, ys := xs + [0.50, 0.50], ys + [0.05, 0.5];
    var numDestinations := |b.destinations|;
    i := 0;
    while i < numDestinations
      invariant 0 <= i <= numDestinations && |xs| == FirstDestIdx(b) + i && |ys| == |xs|
      invariant forall j :: 0 <= j < numIncome ==> xs[j] == 0.01 && 0.0 <= ys[j] <= 1.0
      invariant xs[TotalIncomeIdx(b)] == 0.25 && ys[TotalIncomeIdx(b)] == 0.5
      invariant xs[RemainingIdx(b)] == 0.50 && ys[RemainingIdx(b)] == 0.05
      invariant xs[TotalExpensesIdx(b)] == 0.50 && ys[TotalExpensesIdx(b)] == 0.5
      invariant forall j :: FirstDestIdx(b) <= j < |xs| ==>
        xs[j] == 0.75 && (0.2 <= ys[j] <= 0.95 || (numDestinations == 1 && ys[j] == 0.5))
    {
      xs, ys := xs + [0.75], ys + [SpreadY(i, numDestinations)];
      i := i + 1;
    }
    var numCategories := |b.categories|;
    i := 0;
    while i < numCategories
      invariant 0 <= i <= numCategories && |xs| == FirstCategoryIdx(b) + i && |ys| == |xs|
      invariant forall j :: 0 <= j < numIncome ==> xs[j] == 0.01 && 0.0 <= ys[j] <= 1.0
      invariant xs[TotalIncomeIdx(b)] == 0.25 && ys[TotalIncomeIdx(b)] == 0.5
      invariant xs[RemainingIdx(b)] == 0.50 && ys[RemainingIdx(b)] == 0.05
      invariant xs[TotalExpensesIdx(b)] == 0.50 && ys[TotalExpensesIdx(b)] == 0.5
      invariant forall j :: FirstDestIdx(b) <= j < FirstCategoryIdx(b) ==>
        xs[j] == 0.75 && (0.2 <= ys[j] <= 0.95 || (numDestinations == 1 && ys[j] == 0.5))
      invariant forall j :: FirstCategoryIdx(b) <= j < |xs| ==>
        xs[j] == 0.99 && (0.2 <= ys[j] <= 0.95 || (numCategories == 1 && ys[j] == 0.5))
    {
      xs, ys := xs + [0.99], ys + [SpreadY(i, numCategories)];
      i := i + 1;
    }
  }

  // ---------------------------------------------------------------------------
  // The whole figure's data

  datatype SankeyFigure = SankeyFigure(labels: seq<NodeLabel>, nodeColors: seq<string>, nodeX: seq<real>, nodeY: seq<real>,
                                       links: LinkLists, linkColors: seq<string>)

  /** `create_sankey_with_destinations` up to the figure: one colour and one
      position per label, one colour per link, and the link lists phase by
      phase with every index a label's. */
  method CreateSankeyWithDestinations(income: seq<Row>, destinations: seq<Row>, mapping: seq<MappingRow>,
                                      topNIncome: nat, topNDestination: nat, topNCategory: nat)
    returns (fig: SankeyFigure)
    ensures var b := Prepare(income, destinations, mapping, topNIncome, topNDestination, topNCategory);
      var filtered := FilteredMapping(mapping, NameSet(b.destinations), NameSet(b.categories));
      && fig.labels == AllLabels(b)
      && |fig.nodeColors| == |fig.labels| && |fig.nodeX| == |fig.labels| && |fig.nodeY| == |fig.labels|
      && LinksFollowFlow(b, filtered, fig.links)
      && |fig.linkColors| == |fig.links.sources| == |fig.links.targets| == |fig.links.values|
      && (forall i :: 0 <= i < |fig.links.sources| ==> fig.links.sources[i] < |fig.labels| && fig.links.targets[i] < |fig.labels|)
      && (fig.nodeColors[RemainingIdx(b)] == RemainingColor <==> b.remaining > 0.0)
  {
    var b := Prepare(income, destinations, mapping, topNIncome, topNDestination, topNCategory);
    var labels := AllLabels(b);
    var links := BuildLinks(b, mapping);
    var filtered := FilteredMapping(mapping, NameSet(b.destinations), NameSet(b.categories));
    LinksInRange(b, filtered, links);
    var xs, ys := NodePositions(b);
    fig := SankeyFigure(labels, NodeColors(b), xs, ys, links, LinkColors(b, filtered));
  }
}
