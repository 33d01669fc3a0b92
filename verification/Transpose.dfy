/** CSR to CSC: counting, prefix sum and scatter, proved against the transpose as a sequence
    of edges. */
module Transpose {

  /** Weights are only moved. */
  type Weight = real

  /** A graph in compressed rows: `nodeArray[n]` is where the edges of node n begin. */
  datatype Csr = Csr(nodes: nat, edges: nat, nodeArray: seq<nat>, edgeArray: seq<nat>, edgeValues: seq<Weight>)
  {
    /** The targets of a node do not decrease. */
    ghost predicate RowSorted(n: nat)
      requires n + 1 < |nodeArray|
    {
      forall d, e :: nodeArray[n] <= d < e < nodeArray[n+1] && e < |edgeArray| ==> edgeArray[d] <= edgeArray[e]
    }

    /** What the asserts of the conversion demand of its input. */
    ghost predicate WellFormed() {
      && nodes > 0 && |nodeArray| == nodes + 1 && |edgeArray| == |edgeValues| == edges
      && nodeArray[0] == 0 && nodeArray[nodes] == edges
      && (forall n :: 0 <= n <= nodes ==> nodeArray[n] <= edges)
      && (forall n, m :: 0 <= n <= m <= nodes ==> nodeArray[n] <= nodeArray[m])
      && (forall e :: 0 <= e < edges ==> edgeArray[e] < nodes)
      && (forall n :: 0 <= n < nodes ==> RowSorted(n))
    }
  }

  datatype Edge = Edge(row: nat, col: nat, value: Weight)

  /** The edges of one node. */
  function Row(g: Csr, n: nat, lo: nat, hi: nat): (r: seq<Edge>)
    requires lo <= hi <= |g.edgeArray| && |g.edgeArray| == |g.edgeValues|
    ensures |r| == hi - lo
    ensures forall k :: 0 <= k < |r| ==> r[k] == Edge(n, g.edgeArray[lo + k], g.edgeValues[lo + k])
  {
    seq(hi - lo, k requires 0 <= k < hi - lo => Edge(n, g.edgeArray[lo + k], g.edgeValues[lo + k]))
  }

  /** The edges of the first `n` nodes, in order. */
  ghost function Edges(g: Csr, n: nat): (es: seq<Edge>)
    requires g.WellFormed() && n <= g.nodes
    ensures |es| == g.nodeArray[n]
  {
    if n == 0 then [] else Edges(g, n - 1) + Row(g, n - 1, g.nodeArray[n-1], g.nodeArray[n])
  }

  lemma {:induction false} EdgesGrow(g: Csr, n: nat, m: nat)
    requires g.WellFormed() && n <= m <= g.nodes
    ensures Edges(g, n) <= Edges(g, m)
  {
    hide Row, Csr.WellFormed;
    if n < m { GrowOnce(g, n, m); }
  }

  lemma {:induction false} GrowOnce(g: Csr, n: nat, m: nat)
    requires g.WellFormed() && n < m <= g.nodes
    ensures Edges(g, n) <= Edges(g, m)
    decreases m
  {
    if n < m - 1 { GrowOnce(g, n, m - 1); }
    assert Edges(g, m - 1) <= Edges(g, m);
  }

  /** Edge `e` of the graph, which node `n` lists. */
  lemma EdgeOf(g: Csr, n: nat, e: nat)
    requires g.WellFormed() && n < g.nodes && g.nodeArray[n] <= e < g.nodeArray[n + 1]
    ensures e < g.edges && Edges(g, g.nodes)[e] == Edge(n, g.edgeArray[e], g.edgeValues[e])
  {
    EdgesGrow(g, n + 1, g.nodes);
    var lo := g.nodeArray[n];
    assert Edges(g, n + 1)[e] == Row(g, n, lo, g.nodeArray[n + 1])[e - lo];
  }

  /** Every edge is listed by a node. */
  lemma {:induction false} ListedBy(g: Csr, n: nat, e: nat) returns (k: nat)
    requires g.WellFormed() && n <= g.nodes && e < g.nodeArray[n]
    ensures k < n && g.nodeArray[k] <= e < g.nodeArray[k + 1]
  {
    if e < g.nodeArray[n - 1] { k := ListedBy(g, n - 1, e); } else { k := n - 1; }
  }

  /** The edges are in row order and point to existing nodes. */
  lemma EdgesInOrder(g: Csr)
    requires g.WellFormed()
    ensures var es := Edges(g, g.nodes);
            && |es| == g.edges
            && (forall e :: 0 <= e < g.edges ==> es[e].col == g.edgeArray[e] < g.nodes && es[e].value == g.edgeValues[e])
            && (forall e, f :: 0 <= e < f < g.edges ==> es[e].row <= es[f].row)
  {
    var es := Edges(g, g.nodes);
    forall e | 0 <= e < g.edges ensures es[e].col == g.edgeArray[e] && es[e].value == g.edgeValues[e] {
      var k := ListedBy(g, g.nodes, e);
      EdgeOf(g, k, e);
    }
    forall e, f | 0 <= e < f < g.edges ensures es[e].row <= es[f].row {
      var k := ListedBy(g, g.nodes, e);
      var l := ListedBy(g, g.nodes, f);
      EdgeOf(g, k, e);
      EdgeOf(g, l, f);
    }
  }

  /** The edges into a node, in the order they are listed. */
  function Column(es: seq<Edge>, j: nat): (c: seq<Edge>)
    ensures |c| <= |es| && forall i :: 0 <= i < |c| ==> c[i].col == j && c[i] in es
  {
    if |es| == 0 then []
    else Column(es[..|es|-1], j) + (if es[|es|-1].col == j then [es[|es|-1]] else [])
  }

  /** The edges by column, for the columns below `n`. */
  function Columns(es: seq<Edge>, n: nat): seq<Edge> {
    if n == 0 then [] else Columns(es, n - 1) + Column(es, n - 1)
  }

  // ---- what the transpose is ---------------------------------------------------------

  lemma {:induction false} ColumnsAppend(es: seq<Edge>, x: Edge, n: nat)
    ensures multiset(Columns(es + [x], n)) == multiset(Columns(es, n)) + (if x.col < n then multiset{x} else multiset{})
  {
    hide Column;
    if n > 0 {
      ColumnsAppend(es, x, n - 1);
      var c := Column(es, n - 1);
      ColumnAppend(es, x, n - 1);
      JoinedColumns(Columns(es, n - 1), Columns(es + [x], n - 1), c, x, x.col < n - 1, x.col == n - 1);
    }
  }

  lemma ColumnAppend(es: seq<Edge>, x: Edge, j: nat)
    ensures Column(es + [x], j) == Column(es, j) + (if x.col == j then [x] else [])
  {
    assert (es + [x])[..|es|] == es;
  }

  lemma JoinedColumns(a: seq<Edge>, a': seq<Edge>, c: seq<Edge>, x: Edge, before: bool, here: bool)
    requires multiset(a') == multiset(a) + (if before then multiset{x} else multiset{}) && !(before && here)
    ensures multiset(a' + (c + (if here then [x] else []))) == multiset(a + c) + (if before || here then multiset{x} else multiset{})
  {
  }

  /** No edge is lost, none is made up. */
  lemma {:induction false} SameEdges(es: seq<Edge>, n: nat)
    requires forall e :: 0 <= e < |es| ==> es[e].col < n
    ensures multiset(Columns(es, n)) == multiset(es)
  {
    hide Column, Columns;
    if |es| == 0 {
      NoColumns(n);
    } else {
      var m := |es| - 1;
      SameEdges(es[..m], n);
      ColumnsAppend(es[..m], es[m], n);
      assert es[..m] + [es[m]] == es;
    }
  }

  lemma {:induction false} NoColumns(n: nat)
    ensures Columns([], n) == []
  {
    if n > 0 { NoColumns(n - 1); }
  }

  /** Within a column the rows stay in order. */
  lemma {:induction false} ColumnSorted(es: seq<Edge>, j: nat)
    requires forall e, f :: 0 <= e < f < |es| ==> es[e].row <= es[f].row
    ensures forall a, b :: 0 <= a < b < |Column(es, j)| ==> Column(es, j)[a].row <= Column(es, j)[b].row
  {
    if |es| > 0 {
      var m := |es| - 1;
      ColumnSorted(es[..m], j);
      forall a | 0 <= a < |Column(es[..m], j)| ensures Column(es[..m], j)[a].row <= es[m].row {
        var e :| 0 <= e < m && es[..m][e] == Column(es[..m], j)[a];
      }
    }
  }

  /** How many edges go to a node below `n`. */
  function Below(es: seq<Edge>, n: nat): nat {
    if |es| == 0 then 0 else Below(es[..|es|-1], n) + (if es[|es|-1].col < n then 1 else 0)
  }

  lemma {:induction false} BelowIs(es: seq<Edge>, n: nat)
    ensures |Columns(es, n)| == Below(es, n)
  {
    hide Column, Columns;
    if |es| == 0 {
      NoColumns(n);
    } else {
      var m := |es| - 1;
      BelowIs(es[..m], n);
      ColumnsAppend(es[..m], es[m], n);
      assert es[..m] + [es[m]] == es;
      assert |multiset(Columns(es, n))| == |multiset(Columns(es[..m], n))| + (if es[m].col < n then 1 else 0);
    }
  }

  // ---- slots -------------------------------------------------------------------------

  /** Where column `j` begins. */
  function Base(es: seq<Edge>, j: nat): nat { |Columns(es, j)| }

  lemma BaseStep(es: seq<Edge>, j: nat)
    ensures Base(es, 0) == 0 && Base(es, j + 1) == Base(es, j) + |Column(es, j)|
  {
  }

  lemma {:induction false} BaseMonotone(es: seq<Edge>, i: nat, j: nat)
    requires i <= j
    ensures Base(es, i) <= Base(es, j) && Columns(es, i) <= Columns(es, j)
  {
    if i < j { BaseMonotone(es, i, j - 1); }
  }

  /** Slot `k` of column `j` among all slots. */
  lemma SlotOf(es: seq<Edge>, n: nat, j: nat, k: nat)
    requires j < n && k < |Column(es, j)|
    ensures Base(es, j) + k < |Columns(es, n)| && Columns(es, n)[Base(es, j) + k] == Column(es, j)[k]
    ensures Base(es, j) + k < Base(es, j + 1)
  {
    BaseMonotone(es, j + 1, n);
    assert Columns(es, j + 1)[Base(es, j) + k] == Column(es, j)[k];
  }

  /** Every slot belongs to a column. */
  lemma {:induction false} SlotExists(es: seq<Edge>, n: nat, p: nat) returns (j: nat, k: nat)
    requires p < |Columns(es, n)|
    ensures j < n && k < |Column(es, j)| && p == Base(es, j) + k
  {
    hide Column;
    if p < |Columns(es, n - 1)| {
      j, k := SlotExists(es, n - 1, p);
    } else {
      j, k := n - 1, p - |Columns(es, n - 1)|;
    }
  }

  lemma {:induction false} ColumnPrefix(es: seq<Edge>, e: nat, j: nat)
    requires e <= |es|
    ensures Column(es[..e], j) <= Column(es, j)
    decreases |es| - e
  {
    if e == |es| {
      assert es[..e] == es;
    } else {
      ColumnPrefix(es, e + 1, j);
      assert es[..e + 1][..e] == es[..e];
    }
  }

  lemma ColumnNext(es: seq<Edge>, e: nat, j: nat)
    requires e < |es|
    ensures Column(es[..e + 1], j) == Column(es[..e], j) + (if es[e].col == j then [es[e]] else [])
    ensures es[e].col == j ==> |Column(es[..e], j)| < |Column(es, j)|
  {
    assert es[..e + 1][..e] == es[..e];
    ColumnPrefix(es, e + 1, j);
  }

  // ---- the conversion ----------------------------------------------------------------

  /** Edges seen so far, counted by column. */
  ghost predicate Counted(a: seq<nat>, n: nat, es: seq<Edge>) {
    |a| == n && forall j :: 0 <= j < n ==> a[j] == |Column(es, j)|
  }

  lemma NothingCounted(a: seq<nat>, n: nat, es: seq<Edge>)
    requires |a| == n && forall j :: 0 <= j < n ==> a[j] == 0
    ensures Counted(a, n, es[..0])
  {
    assert es[..0] == [];
  }

  lemma CountOne(a: seq<nat>, n: nat, es: seq<Edge>, e: nat)
    requires e < |es| && es[e].col < n && Counted(a, n, es[..e])
    ensures Counted(a[es[e].col := a[es[e].col] + 1], n, es[..e + 1])
  {
    forall j: nat ensures Column(es[..e + 1], j) == Column(es[..e], j) + (if es[e].col == j then [es[e]] else []) {
      ColumnNext(es, e, j);
    }
    hide Column;
  }

  /** From slot `base` on, the rows and values of `c`. */
  ghost predicate Stored(rows: seq<int>, values: seq<Weight>, base: nat, c: seq<Edge>) {
    && base + |c| <= |rows| && |rows| == |values|
    && forall k :: 0 <= k < |c| ==> rows[base + k] == c[k].row && values[base + k] == c[k].value
  }

  /** Every column's edges seen so far are in their slots. */
  ghost predicate Scattered(rows: seq<int>, values: seq<Weight>, n: nat, es: seq<Edge>, e: nat)
    requires e <= |es|
  {
    && |rows| == |values| == |Columns(es, n)|
    && forall j: nat :: j < n ==> Stored(rows, values, Base(es, j), Column(es[..e], j))
  }

  /** One edge goes to the next slot of its column, which is no slot of another column. */
  lemma ScatterOne(rows: seq<int>, values: seq<Weight>, n: nat, es: seq<Edge>, e: nat)
    requires e < |es| && es[e].col < n && Scattered(rows, values, n, es, e)
    ensures var p := Base(es, es[e].col) + |Column(es[..e], es[e].col)|;
            p < |rows| && Scattered(rows[p := es[e].row], values[p := es[e].value], n, es, e + 1)
  {
    hide Column, Columns;
    var c := es[e].col;
    ColumnNext(es, e, c);
    ColumnPrefix(es, e, c);
    SlotOf(es, n, c, |Column(es[..e], c)|);
    var p := Base(es, c) + |Column(es[..e], c)|;
    var rows', values' := rows[p := es[e].row], values[p := es[e].value];
    forall j: nat | j < n ensures Stored(rows', values', Base(es, j), Column(es[..e + 1], j)) {
      assert Stored(rows, values, Base(es, j), Column(es[..e], j));
      ColumnNext(es, e, j);
      ColumnPrefix(es, e, j);
      if j < c { Apart(es, j, c); }
      if c < j { Apart(es, c, j); }
    }
  }

  /** The slots of a column end before those of a later one begin. */
  lemma Apart(es: seq<Edge>, i: nat, j: nat)
    requires i < j
    ensures Base(es, i) + |Column(es, i)| <= Base(es, j)
  {
    BaseMonotone(es, i + 1, j);
  }

  lemma NothingScattered(rows: seq<int>, values: seq<Weight>, n: nat, es: seq<Edge>)
    requires |rows| == |values| == |Columns(es, n)|
    ensures Scattered(rows, values, n, es, 0)
  {
    assert es[..0] == [];
    forall j: nat | j < n ensures Base(es, j) <= |Columns(es, n)| { BaseMonotone(es, j, n); }
  }

  /** When all edges are in their slots, the arrays hold the columns one after the other. */
  lemma AllScattered(rows: seq<int>, values: seq<Weight>, n: nat, es: seq<Edge>)
    requires Scattered(rows, values, n, es, |es|)
    ensures forall p :: 0 <= p < |rows| ==> rows[p] == Columns(es, n)[p].row && values[p] == Columns(es, n)[p].value
  {
    hide Column, Columns;
    assert es[..|es|] == es;
    forall p | 0 <= p < |rows| ensures rows[p] == Columns(es, n)[p].row && values[p] == Columns(es, n)[p].value {
      var j, k := SlotExists(es, n, p);
      SlotOf(es, n, j, k);
      assert Stored(rows, values, Base(es, j), Column(es, j));
    }
  }

  /** convert_csr_to_csc: the transpose of the graph. */
  method Convert(g: Csr) returns (nodeArray: array<nat>, rows: array<int>, values: array<Weight>)
    requires g.WellFormed()
    ensures nodeArray.Length == g.nodes + 1 && rows.Length == values.Length == g.edges
    ensures var es := Edges(g, g.nodes);
            && |Columns(es, g.nodes)| == g.edges
            && (forall j :: 0 <= j <= g.nodes ==> nodeArray[j] == Base(es, j))
            && (forall p :: 0 <= p < g.edges ==> rows[p] == Columns(es, g.nodes)[p].row && values[p] == Columns(es, g.nodes)[p].value)
  {
    hide Column, Columns, Edges;
    ghost var es := Edges(g, g.nodes);
    EdgesInOrder(g);
    AllSlots(es, g.nodes);
    var incoming := Count(g);
    PrefixSum(g, incoming, es);
    nodeArray := Shift(g, incoming, es);
    rows, values := Scatter(g, nodeArray, es);
    AllScattered(rows[..], values[..], g.nodes, es);
  }

  lemma AllSlots(es: seq<Edge>, n: nat)
    requires forall e :: 0 <= e < |es| ==> es[e].col < n
    ensures |Columns(es, n)| == |es|
  {
    SameEdges(es, n);
    assert |multiset(Columns(es, n))| == |multiset(es)|;
  }

  /** Count the edges into every node. */
  method Count(g: Csr) returns (incoming: array<nat>)
    requires g.WellFormed()
    ensures fresh(incoming) && Counted(incoming[..], g.nodes, Edges(g, g.nodes))
  {
    ghost var es := Edges(g, g.nodes);
    incoming := new nat[g.nodes](i => 0);
    NothingCounted(incoming[..], g.nodes, es);
    for node := 0 to g.nodes
      invariant Counted(incoming[..], g.nodes, es[..g.nodeArray[node]])
    {
      assert g.RowSorted(node);
      CountRow(g, incoming, es, node);
    }
    assert es[..g.edges] == es;
  }

  /** The edges of one node; they are checked to come in order. */
  method CountRow(g: Csr, incoming: array<nat>, ghost es: seq<Edge>, node: nat)
    requires g.WellFormed() && es == Edges(g, g.nodes) && node < g.nodes && g.RowSorted(node)
    requires Counted(incoming[..], g.nodes, es[..g.nodeArray[node]])
    modifies incoming
    ensures Counted(incoming[..], g.nodes, es[..g.nodeArray[node + 1]])
  {
    hide Column, Edges;
    var start, end := g.nodeArray[node], g.nodeArray[node + 1];
    assert start <= end;
    var previous := -1;
    for e := start to end
      invariant Counted(incoming[..], g.nodes, es[..e])
      invariant previous == if e == start then -1 else g.edgeArray[e - 1]
    {
      assert e <= g.edges;
      var edgeIndex := g.edgeArray[e];
      assert edgeIndex < g.nodes;
      assert edgeIndex >= previous;
      EdgeOf(g, node, e);
      CountOne(incoming[..], g.nodes, es, e);
      ghost var was := incoming[..];
      incoming[edgeIndex] := incoming[edgeIndex] + 1;
      assert incoming[..] == was[edgeIndex := was[edgeIndex] + 1];
      previous := edgeIndex;
    }
  }

  method PrefixSum(g: Csr, incoming: array<nat>, ghost es: seq<Edge>)
    requires g.nodes > 0 && Counted(incoming[..], g.nodes, es)
    modifies incoming
    ensures forall j :: 0 <= j < g.nodes ==> incoming[j] == Base(es, j + 1)
  {
    hide Column, Columns, Base;
    assert forall j :: 0 <= j < g.nodes ==> incoming[j] == incoming[..][j];
    BaseStep(es, 0);
    for n := 1 to g.nodes
      invariant forall j :: 0 <= j < n ==> incoming[j] == Base(es, j + 1)
      invariant forall j :: n <= j < g.nodes ==> incoming[j] == |Column(es, j)|
    {
      BaseStep(es, n);
      incoming[n] := incoming[n] + incoming[n - 1];
    }
  }

  method Shift(g: Csr, incoming: array<nat>, ghost es: seq<Edge>) returns (nodeArray: array<nat>)
    requires incoming.Length == g.nodes && forall j :: 0 <= j < g.nodes ==> incoming[j] == Base(es, j + 1)
    ensures fresh(nodeArray) && nodeArray.Length == g.nodes + 1
    ensures forall j :: 0 <= j <= g.nodes ==> nodeArray[j] == Base(es, j)
  {
    nodeArray := new nat[g.nodes + 1];
    nodeArray[0] := 0;
    for n := 1 to g.nodes + 1
      invariant forall j :: 0 <= j < n ==> nodeArray[j] == Base(es, j)
    {
      nodeArray[n] := incoming[n - 1];
    }
  }

  /** Every edge into its slot, and the check that no slot is left out. */
  method Scatter(g: Csr, nodeArray: array<nat>, ghost es: seq<Edge>) returns (rows: array<int>, values: array<Weight>)
    requires g.WellFormed() && es == Edges(g, g.nodes) && |Columns(es, g.nodes)| == g.edges
    requires nodeArray.Length == g.nodes + 1 && forall j :: 0 <= j <= g.nodes ==> nodeArray[j] == Base(es, j)
    ensures fresh(rows) && fresh(values) && Scattered(rows[..], values[..], g.nodes, es, |es|)
    ensures rows.Length == values.Length == g.edges
  {
    hide Edges, Column, Columns, Base, Counted, Scattered;
    rows := new int[g.edges](i => -1);
    values := new Weight[g.edges];
    var incoming := new nat[g.nodes](i => 0);
    NothingScattered(rows[..], values[..], g.nodes, es);
    NothingCounted(incoming[..], g.nodes, es);
    for n := 0 to g.nodes
      invariant Counted(incoming[..], g.nodes, es[..g.nodeArray[n]]) && Scattered(rows[..], values[..], g.nodes, es, g.nodeArray[n])
      invariant forall j :: 0 <= j <= g.nodes ==> nodeArray[j] == Base(es, j)
    {
      ScatterRow(g, nodeArray, rows, values, incoming, es, n);
    }
    CheckAll(g, rows, values, es);
  }

  /** No slot was left out. */
  method CheckAll(g: Csr, rows: array<int>, values: array<Weight>, ghost es: seq<Edge>)
    requires |Columns(es, g.nodes)| == g.edges && Scattered(rows[..], values[..], g.nodes, es, |es|)
  {
    hide Column, Columns;
    AllScattered(rows[..], values[..], g.nodes, es);
    for e := 0 to g.edges {
      assert rows[e] == rows[..][e] == Columns(es, g.nodes)[e].row;
      assert rows[e] != -1;
    }
  }

  method ScatterRow(g: Csr, nodeArray: array<nat>, rows: array<int>, values: array<Weight>, incoming: array<nat>,
                    ghost es: seq<Edge>, n: nat)
    requires g.WellFormed() && es == Edges(g, g.nodes) && n < g.nodes
    requires nodeArray.Length == g.nodes + 1 && forall j :: 0 <= j <= g.nodes ==> nodeArray[j] == Base(es, j)
    requires Counted(incoming[..], g.nodes, es[..g.nodeArray[n]]) && Scattered(rows[..], values[..], g.nodes, es, g.nodeArray[n])
    requires incoming != nodeArray && rows.Length == values.Length
    modifies rows, values, incoming
    ensures Counted(incoming[..], g.nodes, es[..g.nodeArray[n + 1]]) && Scattered(rows[..], values[..], g.nodes, es, g.nodeArray[n + 1])
  {
    hide Column, Columns, Edges, Scattered;
    for e := g.nodeArray[n] to g.nodeArray[n + 1]
      invariant Counted(incoming[..], g.nodes, es[..e]) && Scattered(rows[..], values[..], g.nodes, es, e)
      invariant forall j :: 0 <= j <= g.nodes ==> nodeArray[j] == Base(es, j)
    {
      EdgeOf(g, n, e);
      var edgeIndex := g.edgeArray[e];
      var baseIndex, baseOffset := nodeArray[edgeIndex], incoming[edgeIndex];
      assert es[e].col == edgeIndex && es[e].row == n && es[e].value == g.edgeValues[e];
      assert baseOffset == incoming[..][edgeIndex] == |Column(es[..e], edgeIndex)|;
      ScatterOne(rows[..], values[..], g.nodes, es, e);
      CountOne(incoming[..], g.nodes, es, e);
      ghost var r, v, c := rows[..], values[..], incoming[..];
      rows[baseIndex + baseOffset] := n;
      values[baseIndex + baseOffset] := g.edgeValues[e];
      incoming[edgeIndex] := baseOffset + 1;
      assert rows[..] == r[baseIndex + baseOffset := n];
      assert values[..] == v[baseIndex + baseOffset := g.edgeValues[e]];
      assert incoming[..] == c[edgeIndex := baseOffset + 1];
    }
  }

  // ---- what the conversion promises --------------------------------------------------

  /** The arrays that Convert fills are the transpose. Entry `j` of the node array counts the
      edges to nodes below `j`; the slots hold every edge of the graph exactly once; and from
      entry `j` on stand the edges into node `j`, up to the next entry, in row order. */
  lemma ConversionIsTranspose(g: Csr, j: nat)
    requires g.WellFormed() && j < g.nodes
    ensures var es := Edges(g, g.nodes);
            && Base(es, j) == Below(es, j)
            && multiset(Columns(es, g.nodes)) == multiset(es)
            && Base(es, j + 1) == Base(es, j) + |Column(es, j)| <= |Columns(es, g.nodes)|
            && (forall k :: 0 <= k < |Column(es, j)| ==> Columns(es, g.nodes)[Base(es, j) + k] == Column(es, j)[k])
            && (forall a, b :: 0 <= a < b < |Column(es, j)| ==> Column(es, j)[a].row <= Column(es, j)[b].row)
  {
    hide Column, Columns, Edges, Base;
    var es := Edges(g, g.nodes);
    EdgesInOrder(g);
    SameEdges(es, g.nodes);
    BaseIsBelow(es, j);
    ColumnSorted(es, j);
    BaseStep(es, j);
    BaseMonotone(es, j + 1, g.nodes);
    BaseIsLength(es, g.nodes);
    forall k | 0 <= k < |Column(es, j)| ensures Columns(es, g.nodes)[Base(es, j) + k] == Column(es, j)[k] {
      SlotOf(es, g.nodes, j, k);
    }
  }

  lemma BaseIsBelow(es: seq<Edge>, j: nat)
    ensures Base(es, j) == Below(es, j)
  {
    BelowIs(es, j);
  }

  lemma BaseIsLength(es: seq<Edge>, j: nat)
    ensures Base(es, j) == |Columns(es, j)|
  {
  }
}
