/**
 * What holds of every state the builder passes through: every colour comes
 * from the allocator's dictionary, only own clusters are coloured, every node
 * sits in existing clusters and every edge joins existing nodes with the
 * relationship style.
 */
module Invariants {
  import opened Wrappers
  import opened Metadata
  import opened GraphStore
  import opened Colors
  import opened Lookup
  import opened Assembly

  /** Every node fill and edge colour of `g` is one of `palette`. */
  ghost predicate PaintedFrom(g: Graph, palette: set<string>)
  {
    && (forall k :: k in g.nodes ==> g.nodes[k].fillColor in palette)
    && (forall e :: e in g.edges ==> g.edges[e].color in palette)
  }

  /** Stored colours are palette colours, and every node fill and edge colour is a stored colour. */
  ghost predicate ColoursValid(st: BuildState)
  {
    ValidColors(st.colors) && PaintedFrom(st.graph, st.colors.Values)
  }

  /** A cluster is either uncoloured or has the own-cluster colour. */
  ghost predicate ClustersValid(g: Graph)
  {
    forall k :: k in g.clusters ==> g.clusters[k].color == None || g.clusters[k].color == Some(OwnClusterColor)
  }

  /**
   * Nodes are in existing clusters (at least one); edges join existing nodes, have
   * pen width 3 and one of the two relationship labels.
   */
  ghost predicate StructureValid(g: Graph)
  {
    && (forall k :: k in g.nodes ==> g.nodes[k].clusters != {} && g.nodes[k].clusters <= g.clusters.Keys)
    && (forall e :: e in g.edges ==>
          && e.from in g.nodes && e.to in g.nodes
          && g.edges[e].penwidth == RelationshipPenWidth
          && (g.edges[e].text == LookupLabel || g.edges[e].text == ManyToManyLabel))
  }

  ghost predicate Consistent(st: BuildState)
  {
    ColoursValid(st) && ClustersValid(st.graph) && StructureValid(st.graph)
  }

  /** The builder starts consistent. */
  lemma InitialStateConsistent()
    ensures Consistent(InitialState)
  {
  }

  /** A graph painted from some colours is painted from any colours that include them. */
  lemma PaintedFromMore(g: Graph, palette: set<string>, more: set<string>)
    requires PaintedFrom(g, palette) && palette <= more
    ensures PaintedFrom(g, more)
  {
  }

  /** Fetching or creating a cluster keeps the graph painted, well formed and, with no colour or the own colour, the clusters valid. */
  lemma WithClusterKeeps(g: Graph, palette: set<string>, key: string, text: string, color: Option<string>)
    requires PaintedFrom(g, palette) && StructureValid(g) && ClustersValid(g)
    requires color == None || color == Some(OwnClusterColor)
    ensures var r := WithCluster(g, key, text, color);
      PaintedFrom(r, palette) && StructureValid(r) && ClustersValid(r)
  {
  }

  /** Placing a node, filled from the palette, in an existing cluster keeps the graph painted and well formed. */
  lemma WithNodeKeeps(g: Graph, palette: set<string>, cluster: string, key: string, text: string, fillColor: string)
    requires PaintedFrom(g, palette) && StructureValid(g)
    requires cluster in g.clusters && fillColor in palette
    ensures var r := WithNode(g, cluster, key, text, fillColor);
      PaintedFrom(r, palette) && StructureValid(r) && r.clusters == g.clusters
  {
  }

  /** A relationship-style edge, coloured from the palette, between existing nodes keeps the graph painted and well formed. */
  lemma WithEdgeKeeps(g: Graph, palette: set<string>, key: EdgeKey, color: string, text: string)
    requires PaintedFrom(g, palette) && StructureValid(g)
    requires key.from in g.nodes && key.to in g.nodes && color in palette
    requires text == LookupLabel || text == ManyToManyLabel
    ensures var r := WithEdge(g, key, color, RelationshipPenWidth, text);
      PaintedFrom(r, palette) && StructureValid(r) && r.clusters == g.clusters
  {
  }

  /** The colour handed out is stored, and nothing stored is lost. */
  lemma HexColorStores(colors: map<string, string>, name: string)
    ensures var (colour, after) := HexColor(colors, name);
      colour in after.Values && colors.Values <= after.Values
  {
    var (colour, after) := HexColor(colors, name);
    assert after[name] == colour;
    forall c | c in colors.Values
      ensures c in after.Values
    {
      var n :| n in colors && colors[n] == c;
      assert after[n] == c;
    }
  }

  /** createNodeRelationship between existing clusters keeps the state consistent. */
  lemma NodeRelationshipConsistent(env: Env, st: BuildState, targetCluster: string, sourceCluster: string,
                                   target: Table, source: Table, column: Column, edgeLabel: string)
    requires Consistent(st)
    requires targetCluster in st.graph.clusters && sourceCluster in st.graph.clusters
    requires edgeLabel == LookupLabel || edgeLabel == ManyToManyLabel
    ensures Consistent(NodeRelationship(env, st, targetCluster, sourceCluster, target, source, column, edgeLabel))
  {
    var (colour, colors) := HexColor(st.colors, column.logicalName);
    HexColorStores(st.colors, column.logicalName);
    PaintedFromMore(st.graph, st.colors.Values, colors.Values);
    var g1 := WithNode(st.graph, targetCluster, KeyNodeKey(env, target), env.safe(target.primaryColumn + " (Key)"), colour);
    WithNodeKeeps(st.graph, colors.Values, targetCluster, KeyNodeKey(env, target), env.safe(target.primaryColumn + " (Key)"), colour);
    var g2 := WithNode(g1, sourceCluster, ColumnNodeKey(env, source, column), env.safe(column.displayName), colour);
    WithNodeKeeps(g1, colors.Values, sourceCluster, ColumnNodeKey(env, source, column), env.safe(column.displayName), colour);
    var edge := RelationshipEdge(env, target, source, column);
    WithEdgeKeeps(g2, colors.Values, edge, colour, edgeLabel);
  }

  /** Drawing into a fetched or created target cluster, from an existing source cluster, keeps the state consistent. */
  lemma LinkToConsistent(env: Env, st: BuildState, targetCluster: string, target: Table, source: Table,
                         column: Column, edgeLabel: string)
    requires Consistent(st) && ClusterKey(env, source.name) in st.graph.clusters
    requires edgeLabel == LookupLabel || edgeLabel == ManyToManyLabel
    ensures Consistent(LinkTo(env, st, targetCluster, target, source, column, edgeLabel))
  {
    var g := WithCluster(st.graph, targetCluster, ClusterLabel(target), None);
    WithClusterKeeps(st.graph, st.colors.Values, targetCluster, ClusterLabel(target), None);
    NodeRelationshipConsistent(env, st.(graph := g), targetCluster, ClusterKey(env, source.name), target, source, column, edgeLabel);
  }

  /** One lookup column of a table whose own cluster exists keeps the state consistent. */
  lemma LinkLookupColumnConsistent(env: Env, tables: seq<Table>, rels: seq<Relationship>, t: Table,
                                   st: BuildState, column: Column)
    requires Consistent(st) && ClusterKey(env, t.name) in st.graph.clusters
    ensures Consistent(LinkLookupColumn(env, tables, rels, t, st, column))
  {
    var res := ResolveLookup(env, tables, rels, column);
    if !res.Unresolved? {
      LinkToConsistent(env, st, TargetCluster(env, tables, column, res), tables[res.tableIndex], t, column, LookupLabel);
    }
  }

  /** The column loop of a table whose own cluster exists keeps the state consistent. */
  lemma {:induction false} LinkLookupColumnsConsistent(env: Env, tables: seq<Table>, rels: seq<Relationship>, t: Table,
                                                       st: BuildState, cols: seq<Column>)
    requires Consistent(st) && ClusterKey(env, t.name) in st.graph.clusters
    ensures Consistent(LinkLookupColumns(env, tables, rels, t, st, cols))
    decreases |cols|
  {
    if cols != [] {
      var prev := LinkLookupColumns(env, tables, rels, t, st, cols[..|cols| - 1]);
      LinkLookupColumnsConsistent(env, tables, rels, t, st, cols[..|cols| - 1]);
      LinkLookupColumnsGrows(env, tables, rels, t, st, cols[..|cols| - 1]);
      if cols[|cols| - 1].isNonDefaultLookup {
        LinkLookupColumnConsistent(env, tables, rels, t, prev, cols[|cols| - 1]);
      }
    }
  }

  /** The many-to-many step of a table whose own cluster exists keeps the state consistent. */
  lemma PairManyToManyConsistent(env: Env, tables: seq<Table>, rels: seq<Relationship>, manyToManyNames: seq<string>,
                                 t: Table, st: BuildState)
    requires Consistent(st) && ClusterKey(env, t.name) in st.graph.clusters
    ensures Consistent(PairManyToMany(env, tables, rels, manyToManyNames, t, st))
  {
    if t.name in manyToManyNames && ManyToManyPartner(tables, rels, t).Some? && t.primaryColumnEntity.Some? {
      var second := tables[ManyToManyPartner(tables, rels, t).value.tableIndex];
      LinkToConsistent(env, st, ClusterKey(env, second.name), second, t, t.primaryColumnEntity.value, ManyToManyLabel);
    }
  }

  /** One pass of the outer loop keeps the state consistent. */
  lemma BuildTableConsistent(env: Env, tables: seq<Table>, rels: seq<Relationship>, manyToManyNames: seq<string>,
                             st: BuildState, t: Table)
    requires Consistent(st)
    ensures Consistent(BuildTable(env, tables, rels, manyToManyNames, st, t))
  {
    if NeedsCluster(t, manyToManyNames) {
      var own := ClusterKey(env, t.name);
      var withOwn := st.(graph := WithCluster(st.graph, own, ClusterLabel(t), Some(OwnClusterColor)));
      WithClusterKeeps(st.graph, st.colors.Values, own, ClusterLabel(t), Some(OwnClusterColor));
      var linked := LinkLookupColumns(env, tables, rels, t, withOwn, t.columns);
      LinkLookupColumnsConsistent(env, tables, rels, t, withOwn, t.columns);
      LinkLookupColumnsGrows(env, tables, rels, t, withOwn, t.columns);
      PairManyToManyConsistent(env, tables, rels, manyToManyNames, t, linked);
    }
  }

  /** The outer loop keeps the state consistent. */
  lemma {:induction false} BuildTablesConsistent(env: Env, tables: seq<Table>, rels: seq<Relationship>,
                                                 manyToManyNames: seq<string>, ts: seq<Table>)
    ensures Consistent(BuildTables(env, tables, rels, manyToManyNames, ts))
    decreases |ts|
  {
    if ts == [] {
      InitialStateConsistent();
    } else {
      BuildTablesConsistent(env, tables, rels, manyToManyNames, ts[..|ts| - 1]);
      BuildTableConsistent(env, tables, rels, manyToManyNames,
                           BuildTables(env, tables, rels, manyToManyNames, ts[..|ts| - 1]), ts[|ts| - 1]);
    }
  }

  /**
   * The finished graph: only own clusters are coloured, every node is in existing
   * clusters, every edge joins existing nodes with pen width 3 and label "*|1" or
   * "*|*", and every node fill and edge colour is a palette colour handed out by
   * the allocator.
   */
  lemma BuildConsistent(env: Env, tables: seq<Table>, rels: seq<Relationship>)
    ensures Consistent(Build(env, tables, rels))
  {
    BuildTablesConsistent(env, tables, rels, ManyToManyNames(rels), tables);
  }
}
