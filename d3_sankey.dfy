/** `prepare_sankey_data`: the node list, the index map from node keys to
    positions in it, and the link list of the five-layer cash-flow diagram
    (income sources, total income, remaining and total expenses, destination
    accounts, categories). Nodes and links are appended one at a time, and each
    node's index is the length of the list when it was added. */
module D3Sankey {
  import opened Tables
  import opened SankeyInputs

  datatype NodeKind = IncomeNode | TotalIncomeNode | RemainingNode | TotalExpensesNode | DestinationNode | CategoryNode

  function LayerOf(kind: NodeKind): nat {
    match kind
    case IncomeNode => 0
    case TotalIncomeNode => 1
    case RemainingNode => 2
    case TotalExpensesNode => 2
    case DestinationNode => 3
    case CategoryNode => 4
  }

  datatype Node = Node(name: string, amount: real, percentage: real, layer: nat, kind: NodeKind)
  datatype Link = Link(source: nat, target: nat, value: real)
  datatype Totals = Totals(totalIncome: real, totalExpenses: real, remaining: real)
  datatype SankeyData = SankeyData(nodes: seq<Node>, links: seq<Link>, totals: Totals)

  const TotalIncomeName := "💰 Total Income"
  const RemainingName := "💎 Remaining"
  const TotalExpensesName := "💸 Total Expenses"

  /** The keys of the index map: "income_<name>", "total_income", "remaining",
      "total_expenses", "dest_<name>" and "cat_<name>". Their prefixes differ,
      so two different keys here are two different strings there. */
  datatype NodeKey = IncomeKey(name: string) | TotalIncomeKey | RemainingKey | TotalExpensesKey
                   | DestKey(name: string) | CatKey(name: string)

  /** The key a node is registered under when it is added. */
  function KeyOf(n: Node): (key: NodeKey)
    ensures key.IncomeKey? <==> n.kind == IncomeNode
    ensures key.DestKey? <==> n.kind == DestinationNode
    ensures key.CatKey? <==> n.kind == CategoryNode
    ensures key == TotalIncomeKey <==> n.kind == TotalIncomeNode
    ensures key == RemainingKey <==> n.kind == RemainingNode
    ensures key == TotalExpensesKey <==> n.kind == TotalExpensesNode
    ensures key.IncomeKey? || key.DestKey? || key.CatKey? ==> key.name == n.name
  {
    match n.kind
    case IncomeNode => IncomeKey(n.name)
    case TotalIncomeNode => TotalIncomeKey
    case RemainingNode => RemainingKey
    case TotalExpensesNode => TotalExpensesKey
    case DestinationNode => DestKey(n.name)
    case CategoryNode => CatKey(n.name)
  }

  /** The index map is sound and keeps the last index: every key points at a
      node registered under it, and every node's key points at that node or at
      a later node with the same key (a later assignment overwrites). */
  ghost predicate IndexMapOf(m: map<NodeKey, nat>, nodes: seq<Node>) {
    && (forall key :: key in m ==> m[key] < |nodes| && KeyOf(nodes[m[key]]) == key)
    && (forall i :: 0 <= i < |nodes| ==> KeyOf(nodes[i]) in m && i <= m[KeyOf(nodes[i])])
  }

  lemma AppendKeepsIndexMap(m: map<NodeKey, nat>, nodes: seq<Node>, n: Node)
    requires IndexMapOf(m, nodes)
    ensures IndexMapOf(m[KeyOf(n) := |nodes|], nodes + [n])
  {
    var m', nodes' := m[KeyOf(n) := |nodes|], nodes + [n];
    forall i | 0 <= i < |nodes'| ensures KeyOf(nodes'[i]) in m' && i <= m'[KeyOf(nodes'[i])] {
      if i < |nodes| {
        assert nodes'[i] == nodes[i];
      }
    }
  }

  /** `node_index_map[key] = len(nodes); nodes.append(node)`. */
  method AddNode(nodes: seq<Node>, m: map<NodeKey, nat>, n: Node) returns (nodes': seq<Node>, m': map<NodeKey, nat>)
    requires IndexMapOf(m, nodes)
    ensures nodes' == nodes + [n]
    ensures IndexMapOf(m', nodes')
    ensures m' == m[KeyOf(n) := |nodes|]
  {
    AppendKeepsIndexMap(m, nodes, n);
    m' := m[KeyOf(n) := |nodes|];
    nodes' := nodes + [n];
  }

  /** The nodes of one layer built from a bucketed list. */
  function LayerNodes(rows: seq<Row>, total: real, kind: NodeKind): (nodes: seq<Node>)
    ensures |nodes| == |rows|
    ensures forall i :: 0 <= i < |rows| ==>
      nodes[i] == Node(rows[i].name, rows[i].amount, Share(rows[i].amount, total), LayerOf(kind), kind)
  {
    seq(|rows|, i requires 0 <= i < |rows| => Node(rows[i].name, rows[i].amount, Share(rows[i].amount, total), LayerOf(kind), kind))
  }

  /** Appends one node per row and registers each under its key. */
  method AddLayer(nodes: seq<Node>, m: map<NodeKey, nat>, rows: seq<Row>, total: real, kind: NodeKind)
    returns (nodes': seq<Node>, m': map<NodeKey, nat>)
    requires IndexMapOf(m, nodes)
    ensures nodes' == nodes + LayerNodes(rows, total, kind)
    ensures IndexMapOf(m', nodes')
  {
    nodes', m' := nodes, m;
    var i := 0;
    while i < |rows|
      invariant 0 <= i <= |rows|
      invariant nodes' == nodes + LayerNodes(rows, total, kind)[..i]
      invariant IndexMapOf(m', nodes')
    {
      var row := rows[i];
      var n := Node(row.name, row.amount, Share(row.amount, total), LayerOf(kind), kind);
      nodes', m' := AddNode(nodes', m', n);
      assert LayerNodes(rows, total, kind)[..i + 1] == LayerNodes(rows, total, kind)[..i] + [n];
      i := i + 1;
    }
    assert LayerNodes(rows, total, kind)[..i] == LayerNodes(rows, total, kind);
  }

  /** Total income at 100 %, the remaining node only when something remains,
      and total expenses. */
  function FixedNodes(b: Buckets): (fixed: seq<Node>)
    ensures |fixed| == (if b.remaining > 0.0 then 3 else 2)
    ensures fixed[0] == Node(TotalIncomeName, b.totalIncome, 100.0, 1, TotalIncomeNode)
    ensures b.remaining > 0.0 ==> fixed[1] == Node(RemainingName, b.remaining, Share(b.remaining, b.totalIncome), 2, RemainingNode)
    ensures fixed[|fixed| - 1] == Node(TotalExpensesName, b.totalExpenses, Share(b.totalExpenses, b.totalIncome), 2, TotalExpensesNode)
  {
    [Node(TotalIncomeName, b.totalIncome, 100.0, 1, TotalIncomeNode)]
    + (if b.remaining > 0.0 then [Node(RemainingName, b.remaining, Share(b.remaining, b.totalIncome), 2, RemainingNode)] else [])
    + [Node(TotalExpensesName, b.totalExpenses, Share(b.totalExpenses, b.totalIncome), 2, TotalExpensesNode)]
  }

  /** The node list of the diagram: income sources, the fixed nodes,
      destinations and categories. */
  function DiagramNodes(b: Buckets): seq<Node> {
    LayerNodes(b.income, b.totalIncome, IncomeNode)
    + FixedNodes(b)
    + LayerNodes(b.destinations, b.totalExpenses, DestinationNode)
    + LayerNodes(b.categories, b.totalExpenses, CategoryNode)
  }

  /** Where each part of the node list starts. */
  function TotalIncomeIndex(b: Buckets): nat { |b.income| }
  function TotalExpensesIndex(b: Buckets): nat { |b.income| + 1 + (if b.remaining > 0.0 then 1 else 0) }
  function FirstDestinationIndex(b: Buckets): nat { TotalExpensesIndex(b) + 1 }
  function FirstCategoryIndex(b: Buckets): nat { FirstDestinationIndex(b) + |b.destinations| }

  /** The length of the node list. */
  lemma NodeCount(b: Buckets)
    ensures |DiagramNodes(b)| == FirstCategoryIndex(b) + |b.categories|
  {
  }

  /** The part a position of the node list falls in, and the node there. */
  lemma NodeAt(b: Buckets, j: nat)
    requires j < FirstCategoryIndex(b) + |b.categories|
    ensures |DiagramNodes(b)| == FirstCategoryIndex(b) + |b.categories|
    ensures j < |b.income| ==> DiagramNodes(b)[j] == LayerNodes(b.income, b.totalIncome, IncomeNode)[j]
    ensures TotalIncomeIndex(b) <= j < FirstDestinationIndex(b) ==>
      DiagramNodes(b)[j] == FixedNodes(b)[j - TotalIncomeIndex(b)]
    ensures FirstDestinationIndex(b) <= j < FirstCategoryIndex(b) ==>
      DiagramNodes(b)[j] == LayerNodes(b.destinations, b.totalExpenses, DestinationNode)[j - FirstDestinationIndex(b)]
    ensures FirstCategoryIndex(b) <= j ==>
      DiagramNodes(b)[j] == LayerNodes(b.categories, b.totalExpenses, CategoryNode)[j - FirstCategoryIndex(b)]
  {
  }

  /** Each layer's nodes sit at their places in the node list. */
  lemma LayerAt(b: Buckets, kind: NodeKind)
    requires kind in {IncomeNode, DestinationNode, CategoryNode}
    ensures var rows := LayerRows(b, kind);
      && LayerStart(b, kind) + |rows| <= |DiagramNodes(b)|
      && forall i :: 0 <= i < |rows| ==>
           DiagramNodes(b)[LayerStart(b, kind) + i] == LayerNodes(rows, LayerTotal(b, kind), kind)[i]
  {
    NodeCount(b);
    var rows := LayerRows(b, kind);
    forall i | 0 <= i < |rows|
      ensures DiagramNodes(b)[LayerStart(b, kind) + i] == LayerNodes(rows, LayerTotal(b, kind), kind)[i]
    {
      LayerNodeAt(b, kind, i);
    }
  }

  /** The node of a layer's i-th row. */
  lemma LayerNodeAt(b: Buckets, kind: NodeKind, i: nat)
    requires kind in {IncomeNode, DestinationNode, CategoryNode} && i < |LayerRows(b, kind)|
    ensures LayerStart(b, kind) + i < |DiagramNodes(b)|
    ensures DiagramNodes(b)[LayerStart(b, kind) + i] == LayerNodes(LayerRows(b, kind), LayerTotal(b, kind), kind)[i]
  {
    NodeAt(b, LayerStart(b, kind) + i);
  }

  /** Where a layer starts, the rows it is built from and the total its
      percentages are shares of. */
  function LayerStart(b: Buckets, kind: NodeKind): nat {
    match kind
    case DestinationNode => FirstDestinationIndex(b)
    case CategoryNode => FirstCategoryIndex(b)
    case _ => 0
  }

  function LayerRows(b: Buckets, kind: NodeKind): seq<Row> {
    match kind
    case DestinationNode => b.destinations
    case CategoryNode => b.categories
    case _ => b.income
  }

  function LayerTotal(b: Buckets, kind: NodeKind): real {
    match kind
    case DestinationNode | CategoryNode => b.totalExpenses
    case _ => b.totalIncome
  }

  /** The fixed nodes sit right after the income sources. */
  lemma FixedAt(b: Buckets)
    ensures TotalIncomeIndex(b) + |FixedNodes(b)| <= |DiagramNodes(b)|
    ensures DiagramNodes(b)[TotalIncomeIndex(b)] == FixedNodes(b)[0]
    ensures DiagramNodes(b)[TotalExpensesIndex(b)] == FixedNodes(b)[|FixedNodes(b)| - 1]
    ensures b.remaining > 0.0 ==> DiagramNodes(b)[TotalIncomeIndex(b) + 1] == FixedNodes(b)[1]
  {
    NodeAt(b, TotalIncomeIndex(b));
    NodeAt(b, TotalExpensesIndex(b));
    if b.remaining > 0.0 {
      NodeAt(b, TotalIncomeIndex(b) + 1);
    }
  }

  /** The income, destination and category layers: one node per row, in row
      order, of the layer's kind, on the layer's column, with the row's name and
      amount. */
  lemma LayerLayout(b: Buckets, kind: NodeKind)
    requires kind in {IncomeNode, DestinationNode, CategoryNode}
    ensures var nodes, rows := DiagramNodes(b), LayerRows(b, kind);
      && LayerStart(b, kind) + |rows| <= |nodes|
      && forall i :: 0 <= i < |rows| ==>
           && nodes[LayerStart(b, kind) + i].kind == kind
           && nodes[LayerStart(b, kind) + i].layer == LayerOf(kind)
           && nodes[LayerStart(b, kind) + i].name == rows[i].name
           && nodes[LayerStart(b, kind) + i].amount == rows[i].amount
  {
    NodeCount(b);
    var rows := LayerRows(b, kind);
    forall i | 0 <= i < |rows|
      ensures var node := DiagramNodes(b)[LayerStart(b, kind) + i];
        node.kind == kind && node.layer == LayerOf(kind) && node.name == rows[i].name && node.amount == rows[i].amount
    {
      LayerNodeAt(b, kind, i);
    }
  }

  /** The fixed nodes: total income with 100%, then remaining exactly when
      remaining > 0, and total expenses last. */
  lemma FixedLayout(b: Buckets)
    ensures var nodes := DiagramNodes(b);
      && TotalExpensesIndex(b) < |nodes|
      && nodes[TotalIncomeIndex(b)] == Node(TotalIncomeName, b.totalIncome, 100.0, 1, TotalIncomeNode)
      && (b.remaining > 0.0 <==> exists i :: 0 <= i < |nodes| && nodes[i].kind == RemainingNode)
      && (b.remaining > 0.0 ==>
            && nodes[TotalIncomeIndex(b) + 1].kind == RemainingNode
            && nodes[TotalIncomeIndex(b) + 1].amount == b.remaining)
      && nodes[TotalExpensesIndex(b)].kind == TotalExpensesNode
      && nodes[TotalExpensesIndex(b)].amount == b.totalExpenses
  {
    NodeCount(b);
    FixedAt(b);
    assert b.remaining > 0.0 <==> exists i :: 0 <= i < |DiagramNodes(b)| && DiagramNodes(b)[i].kind == RemainingNode by {
      FixedNodesUnique(b);
    }
  }

  /** Every node sits on the column of its kind. */
  lemma LayersConsistent(b: Buckets)
    ensures var nodes := DiagramNodes(b);
      && |nodes| == FirstCategoryIndex(b) + |b.categories|
      && forall i :: 0 <= i < |nodes| ==> nodes[i].layer == LayerOf(nodes[i].kind)
  {
    NodeCount(b);
    var nodes := DiagramNodes(b);
    forall i | 0 <= i < |nodes| ensures nodes[i].layer == LayerOf(nodes[i].kind) {
      NodeAt(b, i);
    }
  }

  /** Every node's percentage is 0 when the total it is a share of is not
      positive. */
  lemma PercentagesGuarded(b: Buckets)
    ensures var nodes := DiagramNodes(b);
      forall i :: 0 <= i < |nodes| ==>
        (nodes[i].kind in {IncomeNode, RemainingNode, TotalExpensesNode} && b.totalIncome <= 0.0 ==> nodes[i].percentage == 0.0)
        && (nodes[i].kind in {DestinationNode, CategoryNode} && b.totalExpenses <= 0.0 ==> nodes[i].percentage == 0.0)
  {
    NodeCount(b);
    var nodes := DiagramNodes(b);
    forall i | 0 <= i < |nodes|
      ensures nodes[i].kind in {IncomeNode, RemainingNode, TotalExpensesNode} && b.totalIncome <= 0.0 ==> nodes[i].percentage == 0.0
      ensures nodes[i].kind in {DestinationNode, CategoryNode} && b.totalExpenses <= 0.0 ==> nodes[i].percentage == 0.0
    {
      NodeAt(b, i);
    }
  }

  /** `p` is the last node of the given kind and name: the position the index
      map holds for its key, since a later node with the same key overwrites
      the entry. */
  ghost predicate LastNodeOf(nodes: seq<Node>, kind: NodeKind, name: string, p: int) {
    && 0 <= p < |nodes| && nodes[p].kind == kind && nodes[p].name == name
    && forall k :: p < k < |nodes| ==> !(nodes[k].kind == kind && nodes[k].name == name)
  }

  /** A kind and name have at most one last node, so the link ends are fixed. */
  lemma LastNodeUnique(nodes: seq<Node>, kind: NodeKind, name: string, p: int, q: int)
    requires LastNodeOf(nodes, kind, name, p) && LastNodeOf(nodes, kind, name, q)
    ensures p == q
  {
  }

  /** Looking up a named node's key gives the last node of that kind and name. */
  lemma IndexGivesLastNode(m: map<NodeKey, nat>, nodes: seq<Node>, n: Node)
    requires IndexMapOf(m, nodes)
    requires n.kind in {IncomeNode, DestinationNode, CategoryNode} && KeyOf(n) in m
    ensures LastNodeOf(nodes, n.kind, n.name, m[KeyOf(n)])
  {
    var p := m[KeyOf(n)];
    forall k | p < k < |nodes| ensures !(nodes[k].kind == n.kind && nodes[k].name == n.name) {
      assert k <= m[KeyOf(nodes[k])];
    }
  }

  /** One link per row, between the hub and the last node of the given kind
      carrying the row's name, in the row's direction, with the row's amount. */
  ghost predicate LayerLinksOk(nodes: seq<Node>, rows: seq<Row>, kind: NodeKind, hub: nat, intoHub: bool, links: seq<Link>) {
    && |links| == |rows|
    && forall i :: 0 <= i < |rows| ==>
      var end := if intoHub then links[i].source else links[i].target;
      && (if intoHub then links[i].target else links[i].source) == hub
      && LastNodeOf(nodes, kind, rows[i].name, end)
      && links[i].value == rows[i].amount
  }

  /** One link per mapping row, from the last destination node to the last
      category node carrying the row's names, with the row's amount. */
  ghost predicate MappingLinksOk(nodes: seq<Node>, rows: seq<MappingRow>, links: seq<Link>) {
    && |links| == |rows|
    && forall i :: 0 <= i < |rows| ==>
      && LastNodeOf(nodes, DestinationNode, rows[i].destination, links[i].source)
      && LastNodeOf(nodes, CategoryNode, rows[i].category, links[i].target)
      && links[i].value == rows[i].amount
  }

  /** Links from each node of one layer into a hub node (`intoHub`), or from the
      hub out to each of them. */
  method LayerLinks(m: map<NodeKey, nat>, nodes: seq<Node>, rows: seq<Row>, kind: NodeKind, hub: nat, intoHub: bool)
    returns (links: seq<Link>)
    requires IndexMapOf(m, nodes)
    requires kind == IncomeNode || kind == DestinationNode
    requires forall i :: 0 <= i < |rows| ==> KeyOf(Node(rows[i].name, 0.0, 0.0, 0, kind)) in m
    ensures LayerLinksOk(nodes, rows, kind, hub, intoHub, links)
    ensures hub < |nodes| ==> LinksInRange(links, |nodes|)
  {
    links := [];
    var i := 0;
    while i < |rows|
      invariant 0 <= i <= |rows|
      invariant |links| == i
      invariant hub < |nodes| ==> LinksInRange(links, |nodes|)
      invariant forall j :: 0 <= j < i ==>
        var end := if intoHub then links[j].source else links[j].target;
        && (if intoHub then links[j].target else links[j].source) == hub
        && LastNodeOf(nodes, kind, rows[j].name, end)
        && links[j].value == rows[j].amount
    {
      var key := KeyOf(Node(rows[i].name, 0.0, 0.0, 0, kind));
      var index := m[key];
      IndexGivesLastNode(m, nodes, Node(rows[i].name, 0.0, 0.0, 0, kind));
      var link := if intoHub then Link(index, hub, rows[i].amount) else Link(hub, index, rows[i].amount);
      links := links + [link];
      i := i + 1;
    }
  }

  /** Phase 5: a link from destination to category for every mapping row whose
      two keys are both in the index map. */
  method MappingLinks(m: map<NodeKey, nat>, nodes: seq<Node>, rows: seq<MappingRow>) returns (links: seq<Link>)
    requires IndexMapOf(m, nodes)
    requires forall i :: 0 <= i < |rows| ==> DestKey(rows[i].destination) in m && CatKey(rows[i].category) in m
    ensures MappingLinksOk(nodes, rows, links)
    ensures LinksInRange(links, |nodes|)
  {
    links := [];
    var i := 0;
    while i < |rows|
      invariant 0 <= i <= |rows|
      invariant |links| == i
      invariant LinksInRange(links, |nodes|)
      invariant forall j :: 0 <= j < i ==>
        && LastNodeOf(nodes, DestinationNode, rows[j].destination, links[j].source)
        && LastNodeOf(nodes, CategoryNode, rows[j].category, links[j].target)
        && links[j].value == rows[j].amount
    {
      var row := rows[i];
      var sourceKey, targetKey := DestKey(row.destination), CatKey(row.category);
      if sourceKey in m && targetKey in m {
        IndexGivesLastNode(m, nodes, Node(row.destination, 0.0, 0.0, 0, DestinationNode));
        IndexGivesLastNode(m, nodes, Node(row.category, 0.0, 0.0, 0, CategoryNode));
        links := links + [Link(m[sourceKey], m[targetKey], row.amount)];
      }
      i := i + 1;
    }
  }

  /** Every link joins two nodes of the list. */
  predicate LinksInRange(links: seq<Link>, count: nat) {
    forall l :: l in links ==> l.source < count && l.target < count
  }

  /** Phases 2 and 3: total income into remaining, only when something
      remains, then total income into total expenses, always. */
  function HubLinks(b: Buckets): seq<Link> {
    (if b.remaining > 0.0 then [Link(TotalIncomeIndex(b), TotalIncomeIndex(b) + 1, b.remaining)] else [])
    + [Link(TotalIncomeIndex(b), TotalExpensesIndex(b), b.totalExpenses)]
  }

  /** The link list, phase by phase: income sources into total income, the hub
      links, total expenses out to each destination, and one link from
      destination to category per filtered mapping row. */
  ghost predicate LinksFollowFlow(b: Buckets, filtered: seq<MappingRow>, nodes: seq<Node>, links: seq<Link>) {
    var k := |b.income|;
    var h := k + |HubLinks(b)|;
    var d := h + |b.destinations|;
    && |links| == d + |filtered|
    && LayerLinksOk(nodes, b.income, IncomeNode, TotalIncomeIndex(b), true, links[..k])
    && links[k..h] == HubLinks(b)
    && LayerLinksOk(nodes, b.destinations, DestinationNode, TotalExpensesIndex(b), false, links[h..d])
    && MappingLinksOk(nodes, filtered, links[d..])
  }

  /** The number of links: one per income source, one to remaining when
      something remains, one to total expenses, one per destination and one per
      filtered mapping row. */
  lemma LinkCount(b: Buckets, filtered: seq<MappingRow>, nodes: seq<Node>, links: seq<Link>)
    requires LinksFollowFlow(b, filtered, nodes, links)
    ensures |links| == |b.income| + (if b.remaining > 0.0 then 1 else 0) + 1 + |b.destinations| + |filtered|
  {
  }

  /** Lines 84-160: the node list and the index map. */
  method BuildNodes(b: Buckets) returns (nodes: seq<Node>, m: map<NodeKey, nat>)
    ensures nodes == DiagramNodes(b)
    ensures IndexMapOf(m, nodes)
  {
    ghost var incomes := LayerNodes(b.income, b.totalIncome, IncomeNode);
    nodes, m := AddLayer([], map[], b.income, b.totalIncome, IncomeNode);
    assert nodes == incomes;
    var totalIncomeNode := Node(TotalIncomeName, b.totalIncome, 100.0, 1, TotalIncomeNode);
    nodes, m := AddNode(nodes, m, totalIncomeNode);
    ghost var fixed := [totalIncomeNode];
    if b.remaining > 0.0 {
      var remainingNode := Node(RemainingName, b.remaining, Share(b.remaining, b.totalIncome), 2, RemainingNode);
      nodes, m := AddNode(nodes, m, remainingNode);
      fixed := fixed + [remainingNode];
    }
    assert nodes == incomes + fixed;
    var totalExpensesNode := Node(TotalExpensesName, b.totalExpenses, Share(b.totalExpenses, b.totalIncome), 2, TotalExpensesNode);
    nodes, m := AddNode(nodes, m, totalExpensesNode);
    fixed := fixed + [totalExpensesNode];
    assert nodes == incomes + fixed;
    assert fixed == FixedNodes(b);
    nodes, m := AddLayer(nodes, m, b.destinations, b.totalExpenses, DestinationNode);
    nodes, m := AddLayer(nodes, m, b.categories, b.totalExpenses, CategoryNode);
  }

  /** Lines 162-222: the link list, with endpoints looked up in the index map. */
  method BuildLinks(b: Buckets, mapping: seq<MappingRow>, nodes: seq<Node>, m: map<NodeKey, nat>)
    returns (links: seq<Link>)
    requires nodes == DiagramNodes(b)
    requires IndexMapOf(m, nodes)
    ensures LinksFollowFlow(b, FilteredMapping(mapping, NameSet(b.destinations), NameSet(b.categories)), nodes, links)
    ensures LinksInRange(links, |nodes|)
  {
    DiagramKeys(b, m, nodes);
    var totalIncomeIdx := m[TotalIncomeKey];
    var totalExpensesIdx := m[TotalExpensesKey];

    // Phase 1
    var incomeLinks := LayerLinks(m, nodes, b.income, IncomeNode, totalIncomeIdx, true);
    links := incomeLinks;
    // Phase 2
    if b.remaining > 0.0 {
      links := links + [Link(totalIncomeIdx, m[RemainingKey], b.remaining)];
    }
    // Phase 3
    links := links + [Link(totalIncomeIdx, totalExpensesIdx, b.totalExpenses)];
    assert links == incomeLinks + HubLinks(b);
    // Phase 4
    var destinationLinks := LayerLinks(m, nodes, b.destinations, DestinationNode, totalExpensesIdx, false);
    links := links + destinationLinks;
    // Phase 5
    var filtered := FilteredMapping(mapping, NameSet(b.destinations), NameSet(b.categories));
    MappedKeysPresent(m, nodes, b, filtered, mapping);
    var categoryLinks := MappingLinks(m, nodes, filtered);
    links := links + categoryLinks;
    FlowFromPhases(b, filtered, nodes, incomeLinks, destinationLinks, categoryLinks);
  }

  /** What the link phases look up in the index map: a key for every bucketed
      name, and the fixed nodes at their places in the layout. */
  lemma DiagramKeys(b: Buckets, m: map<NodeKey, nat>, nodes: seq<Node>)
    requires nodes == DiagramNodes(b)
    requires IndexMapOf(m, nodes)
    ensures |nodes| == FirstCategoryIndex(b) + |b.categories|
    ensures forall i :: 0 <= i < |b.income| ==> KeyOf(Node(b.income[i].name, 0.0, 0.0, 0, IncomeNode)) in m
    ensures forall i :: 0 <= i < |b.destinations| ==> KeyOf(Node(b.destinations[i].name, 0.0, 0.0, 0, DestinationNode)) in m
    ensures forall i :: 0 <= i < |b.categories| ==> KeyOf(Node(b.categories[i].name, 0.0, 0.0, 0, CategoryNode)) in m
    ensures TotalIncomeKey in m && m[TotalIncomeKey] == TotalIncomeIndex(b)
    ensures TotalExpensesKey in m && m[TotalExpensesKey] == TotalExpensesIndex(b)
    ensures b.remaining > 0.0 ==> RemainingKey in m && m[RemainingKey] == TotalIncomeIndex(b) + 1
  {
    NodeCount(b);
    assert LayerRows(b, IncomeNode) == b.income;
    assert LayerRows(b, DestinationNode) == b.destinations;
    assert LayerRows(b, CategoryNode) == b.categories;
    LayerKeys(b, m, nodes, IncomeNode);
    LayerKeys(b, m, nodes, DestinationNode);
    LayerKeys(b, m, nodes, CategoryNode);
    FixedKeys(b, m, nodes);
  }

  /** Every name of a layer has its key in the index map. */
  lemma LayerKeys(b: Buckets, m: map<NodeKey, nat>, nodes: seq<Node>, kind: NodeKind)
    requires nodes == DiagramNodes(b)
    requires IndexMapOf(m, nodes)
    requires kind in {IncomeNode, DestinationNode, CategoryNode}
    ensures forall i :: 0 <= i < |LayerRows(b, kind)| ==> KeyOf(Node(LayerRows(b, kind)[i].name, 0.0, 0.0, 0, kind)) in m
  {
    LayerAt(b, kind);
    KeysPresent(m, nodes, LayerRows(b, kind), LayerTotal(b, kind), kind, LayerStart(b, kind));
  }

  /** The fixed nodes are registered at their places in the layout. */
  lemma FixedKeys(b: Buckets, m: map<NodeKey, nat>, nodes: seq<Node>)
    requires nodes == DiagramNodes(b)
    requires IndexMapOf(m, nodes)
    ensures TotalIncomeKey in m && m[TotalIncomeKey] == TotalIncomeIndex(b)
    ensures TotalExpensesKey in m && m[TotalExpensesKey] == TotalExpensesIndex(b)
    ensures b.remaining > 0.0 ==> RemainingKey in m && m[RemainingKey] == TotalIncomeIndex(b) + 1
  {
    FixedAt(b);
    FixedNodesUnique(b);
    SingleKey(m, nodes, TotalIncomeIndex(b), TotalIncomeKey);
    SingleKey(m, nodes, TotalExpensesIndex(b), TotalExpensesKey);
    if b.remaining > 0.0 {
      SingleKey(m, nodes, TotalIncomeIndex(b) + 1, RemainingKey);
    }
  }

  /** The fixed nodes appear once each, at their places in the layout. */
  lemma FixedNodesUnique(b: Buckets)
    ensures var nodes := DiagramNodes(b);
      forall j :: 0 <= j < |nodes| ==>
        && (nodes[j].kind == TotalIncomeNode <==> j == TotalIncomeIndex(b))
        && (nodes[j].kind == RemainingNode <==> b.remaining > 0.0 && j == TotalIncomeIndex(b) + 1)
        && (nodes[j].kind == TotalExpensesNode <==> j == TotalExpensesIndex(b))
  {
    NodeCount(b);
    var nodes := DiagramNodes(b);
    forall j | 0 <= j < |nodes|
      ensures && (nodes[j].kind == TotalIncomeNode <==> j == TotalIncomeIndex(b))
              && (nodes[j].kind == RemainingNode <==> b.remaining > 0.0 && j == TotalIncomeIndex(b) + 1)
              && (nodes[j].kind == TotalExpensesNode <==> j == TotalExpensesIndex(b))
    {
      NodeAt(b, j);
    }
  }

  /** The five phases, laid end to end, make the link list described by
      LinksFollowFlow, and all of them stay inside the node list. */
  lemma FlowFromPhases(b: Buckets, filtered: seq<MappingRow>, nodes: seq<Node>,
                       incomeLinks: seq<Link>, destinationLinks: seq<Link>, categoryLinks: seq<Link>)
    requires |nodes| == FirstCategoryIndex(b) + |b.categories|
    requires LayerLinksOk(nodes, b.income, IncomeNode, TotalIncomeIndex(b), true, incomeLinks)
    requires LayerLinksOk(nodes, b.destinations, DestinationNode, TotalExpensesIndex(b), false, destinationLinks)
    requires MappingLinksOk(nodes, filtered, categoryLinks)
    requires LinksInRange(incomeLinks, |nodes|) && LinksInRange(destinationLinks, |nodes|)
    requires LinksInRange(categoryLinks, |nodes|)
    ensures LinksFollowFlow(b, filtered, nodes, incomeLinks + HubLinks(b) + destinationLinks + categoryLinks)
    ensures LinksInRange(incomeLinks + HubLinks(b) + destinationLinks + categoryLinks, |nodes|)
  {
    var links := incomeLinks + HubLinks(b) + destinationLinks + categoryLinks;
    var k := |b.income|;
    var h := k + |HubLinks(b)|;
    var d := h + |b.destinations|;
    assert links[..k] == incomeLinks;
    assert links[k..h] == HubLinks(b);
    assert links[h..d] == destinationLinks;
    assert links[d..] == categoryLinks;
    assert LinksInRange(HubLinks(b), |nodes|);
  }

  /** `prepare_sankey_data` with the column names fixed and the tables given as
      rows: the node list laid out layer by layer, every link between two of its
      nodes, the links phase by phase, and the three totals. */
  method PrepareSankeyData(income: seq<Row>, destinations: seq<Row>, mapping: seq<MappingRow>,
                           topNIncome: nat, topNDestination: nat, topNCategory: nat)
    returns (data: SankeyData)
    ensures var b := Prepare(income, destinations, mapping, topNIncome, topNDestination, topNCategory);
      && data.totals == Totals(b.totalIncome, b.totalExpenses, b.remaining)
      && data.nodes == DiagramNodes(b)
      && LinksFollowFlow(b, FilteredMapping(mapping, NameSet(b.destinations), NameSet(b.categories)), data.nodes, data.links)
    ensures LinksInRange(data.links, |data.nodes|)
  {
    var b := Prepare(income, destinations, mapping, topNIncome, topNDestination, topNCategory);
    var nodes, m := BuildNodes(b);
    var links := BuildLinks(b, mapping, nodes, m);
    data := SankeyData(nodes, links, Totals(b.totalIncome, b.totalExpenses, b.remaining));
  }

  /** A name on a bucketed list has its layer's key in the index map, once the
      layer's nodes sit in the node list from `first` on. */
  lemma KeysPresent(m: map<NodeKey, nat>, nodes: seq<Node>, rows: seq<Row>, total: real, kind: NodeKind, first: nat)
    requires IndexMapOf(m, nodes)
    requires first + |rows| <= |nodes|
    requires forall i :: 0 <= i < |rows| ==> nodes[first + i] == LayerNodes(rows, total, kind)[i]
    ensures forall i :: 0 <= i < |rows| ==> KeyOf(Node(rows[i].name, 0.0, 0.0, 0, kind)) in m
  {
    forall i | 0 <= i < |rows| ensures KeyOf(Node(rows[i].name, 0.0, 0.0, 0, kind)) in m {
      var n := LayerNodes(rows, total, kind)[i];
      assert nodes[first + i] == n;
      assert KeyOf(n) == KeyOf(Node(rows[i].name, 0.0, 0.0, 0, kind));
    }
  }

  /** A key held by exactly one node maps to that node. */
  lemma SingleKey(m: map<NodeKey, nat>, nodes: seq<Node>, i: nat, key: NodeKey)
    requires IndexMapOf(m, nodes)
    requires i < |nodes| && KeyOf(nodes[i]) == key
    requires forall j :: 0 <= j < |nodes| && j != i ==> KeyOf(nodes[j]) != key
    ensures key in m && m[key] == i
  {
  }

  /** Every filtered mapping row names a destination and a category on the
      diagram, so both of its keys are in the index map. */
  lemma MappedKeysPresent(m: map<NodeKey, nat>, nodes: seq<Node>, b: Buckets, filtered: seq<MappingRow>, mapping: seq<MappingRow>)
    requires IndexMapOf(m, nodes)
    requires filtered == FilteredMapping(mapping, NameSet(b.destinations), NameSet(b.categories))
    requires |nodes| == FirstCategoryIndex(b) + |b.categories|
    requires forall i :: 0 <= i < |b.destinations| ==> KeyOf(Node(b.destinations[i].name, 0.0, 0.0, 0, DestinationNode)) in m
    requires forall i :: 0 <= i < |b.categories| ==> KeyOf(Node(b.categories[i].name, 0.0, 0.0, 0, CategoryNode)) in m
    ensures forall i :: 0 <= i < |filtered| ==> DestKey(filtered[i].destination) in m && CatKey(filtered[i].category) in m
  {
    forall i | 0 <= i < |filtered| ensures DestKey(filtered[i].destination) in m && CatKey(filtered[i].category) in m {
      assert filtered[i] in filtered;
      var d :| d in b.destinations && d.name == filtered[i].destination;
      var c :| c in b.categories && c.name == filtered[i].category;
      var p :| 0 <= p < |b.destinations| && b.destinations[p] == d;
      var q :| 0 <= q < |b.categories| && b.categories[q] == c;
      assert KeyOf(Node(b.destinations[p].name, 0.0, 0.0, 0, DestinationNode)) == DestKey(filtered[i].destination);
      assert KeyOf(Node(b.categories[q].name, 0.0, 0.0, 0, CategoryNode)) == CatKey(filtered[i].category);
    }
  }
}
