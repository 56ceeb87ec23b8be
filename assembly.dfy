/**
 * The graph the builder assembles, as a function of the tables and the
 * relationships: which clusters, nodes and edges buildGraph creates and with
 * which attributes, step by step in the order the builder takes them.
 */
module Assembly {
  import opened Wrappers
  import opened Metadata
  import opened GraphStore
  import opened Colors
  import opened Lookup

  /** The colour of a cluster that a table gets for itself. */
  const OwnClusterColor := "#7070E0"

  /** Edge label of a lookup (one-to-many) relationship. */
  const LookupLabel := "*|1"

  /** Edge label of a many-to-many relationship. */
  const ManyToManyLabel := "*|*"

  /** Pen width of every relationship edge. */
  const RelationshipPenWidth := "3"

  /** What the builder has produced so far: the graph and the colour dictionary (entityColors). */
  datatype BuildState = BuildState(graph: Graph, colors: map<string, string>)

  /** Before the first table: an empty graph and no colours handed out. */
  const InitialState := BuildState(EmptyGraph, map[])

  /** The (sanitised) key of the cluster named "cluster_" + `name`. */
  function ClusterKey(env: Env, name: string): string
  {
    env.safe("cluster_" + name)
  }

  /** The key of the node for the primary key of the table looked up. */
  function KeyNodeKey(env: Env, target: Table): string
  {
    env.safe(target.name + "-" + target.primaryColumn)
  }

  /** The key of the node for the column that does the lookup. */
  function ColumnNodeKey(env: Env, source: Table, column: Column): string
  {
    env.safe(source.name + "-" + column.displayName)
  }

  /** The edge from the column node to the key node; its name is not sanitised. */
  function RelationshipEdge(env: Env, target: Table, source: Table, column: Column): EdgeKey
  {
    EdgeKey(ColumnNodeKey(env, source, column), KeyNodeKey(env, target),
            "Lookup " + source.localizedName + " - " + column.displayName + " - " + column.logicalName)
  }

  /**
   * The relationship `source`.`column` -> `target` is drawn in `st`: an edge from the
   * column node (in the source cluster) to the key node (in the target cluster),
   * both nodes filled with the column's colour, the edge in that colour with pen
   * width 3 and the given label.
   */
  ghost predicate Linked(env: Env, st: BuildState, targetCluster: string, sourceCluster: string,
                         target: Table, source: Table, column: Column, edgeLabel: string)
  {
    var keyNode := KeyNodeKey(env, target);
    var columnNode := ColumnNodeKey(env, source, column);
    var edge := RelationshipEdge(env, target, source, column);
    && column.logicalName in st.colors
    && edge in st.graph.edges
    && st.graph.edges[edge] == Edge(st.colors[column.logicalName], RelationshipPenWidth, edgeLabel)
    && keyNode in st.graph.nodes && columnNode in st.graph.nodes
    && targetCluster in st.graph.nodes[keyNode].clusters
    && sourceCluster in st.graph.nodes[columnNode].clusters
    && st.graph.nodes[keyNode].fillColor == st.colors[column.logicalName]
    && st.graph.nodes[columnNode].fillColor == st.colors[column.logicalName]
  }

  /**
   * Nothing is taken away from `st` on the way to `r`: every cluster, node, edge and
   * stored colour stays, and every node stays in the clusters it was placed in.
   */
  ghost predicate Grows(st: BuildState, r: BuildState)
  {
    && st.graph.clusters.Keys <= r.graph.clusters.Keys
    && st.graph.edges.Keys <= r.graph.edges.Keys
    && (forall k :: k in st.graph.nodes ==> k in r.graph.nodes && st.graph.nodes[k].clusters <= r.graph.nodes[k].clusters)
    && (forall n :: n in st.colors ==> n in r.colors && r.colors[n] == st.colors[n])
  }

  /**
   * createNodeRelationship: colour the column, add the key node to the target
   * cluster and the column node to the source cluster, then the edge between them.
   */
  function NodeRelationship(env: Env, st: BuildState, targetCluster: string, sourceCluster: string,
                            target: Table, source: Table, column: Column, edgeLabel: string): (r: BuildState)
    ensures r.colors == HexColor(st.colors, column.logicalName).1
    ensures Linked(env, r, targetCluster, sourceCluster, target, source, column, edgeLabel)
  {
    var (colour, colors) := HexColor(st.colors, column.logicalName);
    var g1 := WithNode(st.graph, targetCluster, KeyNodeKey(env, target), env.safe(target.primaryColumn + " (Key)"), colour);
    var g2 := WithNode(g1, sourceCluster, ColumnNodeKey(env, source, column), env.safe(column.displayName), colour);
    var g3 := WithEdge(g2, RelationshipEdge(env, target, source, column), colour, RelationshipPenWidth, edgeLabel);
    BuildState(g3, colors)
  }

  /** createNodeRelationship leaves the clusters alone and takes nothing away. */
  lemma NodeRelationshipGrows(env: Env, st: BuildState, targetCluster: string, sourceCluster: string,
                              target: Table, source: Table, column: Column, edgeLabel: string)
    ensures var r := NodeRelationship(env, st, targetCluster, sourceCluster, target, source, column, edgeLabel);
      r.graph.clusters == st.graph.clusters && Grows(st, r)
  {
  }

  /**
   * createNodeRelationship labels the column node with the column's display name
   * and the key node with the primary column followed by " (Key)"; when both
   * nodes share one key, the later label, the column's, wins.
   */
  lemma NodeRelationshipLabels(env: Env, st: BuildState, targetCluster: string, sourceCluster: string,
                               target: Table, source: Table, column: Column, edgeLabel: string)
    ensures var r := NodeRelationship(env, st, targetCluster, sourceCluster, target, source, column, edgeLabel);
      && r.graph.nodes[ColumnNodeKey(env, source, column)].text == env.safe(column.displayName)
      && (KeyNodeKey(env, target) != ColumnNodeKey(env, source, column) ==>
            r.graph.nodes[KeyNodeKey(env, target)].text == env.safe(target.primaryColumn + " (Key)"))
  {
  }

  /**
   * createNodeRelationship adds exactly the two node keys and the one edge key, and
   * every other node and edge keeps all its attributes.
   */
  lemma NodeRelationshipFrame(env: Env, st: BuildState, targetCluster: string, sourceCluster: string,
                              target: Table, source: Table, column: Column, edgeLabel: string)
    ensures var r := NodeRelationship(env, st, targetCluster, sourceCluster, target, source, column, edgeLabel);
      && r.graph.nodes.Keys == st.graph.nodes.Keys + {KeyNodeKey(env, target), ColumnNodeKey(env, source, column)}
      && r.graph.edges.Keys == st.graph.edges.Keys + {RelationshipEdge(env, target, source, column)}
      && (forall k :: k in st.graph.nodes && k != KeyNodeKey(env, target) && k != ColumnNodeKey(env, source, column) ==>
            r.graph.nodes[k] == st.graph.nodes[k])
      && (forall e :: e in st.graph.edges && e != RelationshipEdge(env, target, source, column) ==>
            r.graph.edges[e] == st.graph.edges[e])
  {
  }

  /**
   * Every cluster keeps its colour and every cluster that appears is created
   * without one: nothing but a table's own cluster step colours a cluster.
   */
  ghost predicate ColoursKept(st: BuildState, r: BuildState)
  {
    forall k :: k in r.graph.clusters ==>
      r.graph.clusters[k].color == (if k in st.graph.clusters then st.graph.clusters[k].color else None)
  }

  /**
   * A relationship drawn into the cluster `targetCluster`: the cluster is fetched or
   * created and labelled after the target table, its colour untouched, and the
   * two nodes and the edge are added (lines 102-110, 116-121, 143-155).
   */
  function LinkTo(env: Env, st: BuildState, targetCluster: string, target: Table, source: Table,
                  column: Column, edgeLabel: string): (r: BuildState)
    ensures targetCluster in r.graph.clusters && r.graph.clusters[targetCluster].text == ClusterLabel(target)
    ensures r.colors == HexColor(st.colors, column.logicalName).1
  {
    var g := WithCluster(st.graph, targetCluster, ClusterLabel(target), None);
    NodeRelationship(env, st.(graph := g), targetCluster, ClusterKey(env, source.name), target, source, column, edgeLabel)
  }

  /** LinkTo draws the relationship into the target cluster and the source table's own cluster. */
  lemma LinkToDraws(env: Env, st: BuildState, targetCluster: string, target: Table, source: Table,
                    column: Column, edgeLabel: string)
    ensures Linked(env, LinkTo(env, st, targetCluster, target, source, column, edgeLabel),
                   targetCluster, ClusterKey(env, source.name), target, source, column, edgeLabel)
  {
  }

  /** LinkTo adds the target cluster, if new, without a colour, and takes nothing away. */
  lemma LinkToGrows(env: Env, st: BuildState, targetCluster: string, target: Table, source: Table,
                    column: Column, edgeLabel: string)
    ensures var r := LinkTo(env, st, targetCluster, target, source, column, edgeLabel);
      && r.graph.clusters.Keys == st.graph.clusters.Keys + {targetCluster}
      && Grows(st, r) && ColoursKept(st, r)
  {
    var g := WithCluster(st.graph, targetCluster, ClusterLabel(target), None);
    NodeRelationshipGrows(env, st.(graph := g), targetCluster, ClusterKey(env, source.name), target, source, column, edgeLabel);
  }

  /** The cluster a resolved lookup column is drawn into: named after the column in tier 1, after the table in tier 2. */
  function TargetCluster(env: Env, tables: seq<Table>, column: Column, res: Resolution): string
    requires !res.Unresolved? && res.tableIndex < |tables|
  {
    if res.Direct? then ClusterKey(env, column.logicalName) else ClusterKey(env, tables[res.tableIndex].name)
  }

  /**
   * One lookup column of table `t` (lines 83-121): resolve it and, when it leads
   * to a table, draw the "*|1" relationship; otherwise nothing changes.
   */
  function LinkLookupColumn(env: Env, tables: seq<Table>, rels: seq<Relationship>, t: Table,
                            st: BuildState, column: Column): (r: BuildState)
    ensures ResolveLookup(env, tables, rels, column).Unresolved? ==> r == st
  {
    var res := ResolveLookup(env, tables, rels, column);
    if res.Unresolved? then st
    else LinkTo(env, st, TargetCluster(env, tables, column, res), tables[res.tableIndex], t, column, LookupLabel)
  }

  /** The loop of lines 70-122 over the first `|cols|` columns: non-lookup columns are skipped. */
  function LinkLookupColumns(env: Env, tables: seq<Table>, rels: seq<Relationship>, t: Table,
                             st: BuildState, cols: seq<Column>): BuildState
    decreases |cols|
  {
    if cols == [] then st
    else
      var prev := LinkLookupColumns(env, tables, rels, t, st, cols[..|cols| - 1]);
      var column := cols[|cols| - 1];
      if column.isNonDefaultLookup then LinkLookupColumn(env, tables, rels, t, prev, column) else prev
  }

  /**
   * The many-to-many step of lines 125-158: for a table named as the first entity
   * of a many-to-many relationship whose partner is found, draw the "*|*"
   * relationship from the table's primary key column; without one, nothing changes.
   */
  function PairManyToMany(env: Env, tables: seq<Table>, rels: seq<Relationship>, manyToManyNames: seq<string>,
                          t: Table, st: BuildState): (r: BuildState)
    ensures t.name !in manyToManyNames || ManyToManyPartner(tables, rels, t).None? || t.primaryColumnEntity.None? ==> r == st
  {
    if t.name !in manyToManyNames then st
    else match ManyToManyPartner(tables, rels, t)
      case None => st
      case Some(p) =>
        match t.primaryColumnEntity
        case None => st
        case Some(id) =>
          var second := tables[p.tableIndex];
          LinkTo(env, st, ClusterKey(env, second.name), second, t, id, ManyToManyLabel)
  }

  /**
   * One pass of the outer loop (lines 57-159): a table with a non-default lookup
   * column or named in a many-to-many relationship gets its own coloured cluster,
   * its lookup columns and its many-to-many partner; any other table is skipped.
   */
  function BuildTable(env: Env, tables: seq<Table>, rels: seq<Relationship>, manyToManyNames: seq<string>,
                      st: BuildState, t: Table): (r: BuildState)
    ensures !NeedsCluster(t, manyToManyNames) ==> r == st
  {
    if !NeedsCluster(t, manyToManyNames) then st
    else
      var own := ClusterKey(env, t.name);
      var withOwn := st.(graph := WithCluster(st.graph, own, ClusterLabel(t), Some(OwnClusterColor)));
      var linked := LinkLookupColumns(env, tables, rels, t, withOwn, t.columns);
      PairManyToMany(env, tables, rels, manyToManyNames, t, linked)
  }

  /** The outer loop over the first `|ts|` tables. */
  function BuildTables(env: Env, tables: seq<Table>, rels: seq<Relationship>, manyToManyNames: seq<string>,
                       ts: seq<Table>): BuildState
    decreases |ts|
  {
    if ts == [] then InitialState
    else BuildTable(env, tables, rels, manyToManyNames, BuildTables(env, tables, rels, manyToManyNames, ts[..|ts| - 1]), ts[|ts| - 1])
  }

  /** buildGraph without layout and export (lines 49-159): the graph and the colour dictionary it leaves. */
  function Build(env: Env, tables: seq<Table>, rels: seq<Relationship>): BuildState
  {
    BuildTables(env, tables, rels, ManyToManyNames(rels), tables)
  }

  /** Growth is transitive. */
  lemma GrowsTransitive(a: BuildState, b: BuildState, c: BuildState)
    requires Grows(a, b) && Grows(b, c)
    ensures Grows(a, c)
  {
  }

  /** Keeping colours is transitive, given that the middle state kept every cluster. */
  lemma ColoursKeptTransitive(a: BuildState, b: BuildState, c: BuildState)
    requires Grows(a, b) && ColoursKept(a, b) && ColoursKept(b, c)
    ensures ColoursKept(a, c)
  {
  }

  /** One lookup column takes nothing away and colours no cluster. */
  lemma LinkLookupColumnGrows(env: Env, tables: seq<Table>, rels: seq<Relationship>, t: Table,
                              st: BuildState, column: Column)
    ensures var r := LinkLookupColumn(env, tables, rels, t, st, column);
      Grows(st, r) && ColoursKept(st, r)
  {
    var res := ResolveLookup(env, tables, rels, column);
    if !res.Unresolved? {
      LinkToGrows(env, st, TargetCluster(env, tables, column, res), tables[res.tableIndex], t, column, LookupLabel);
    }
  }

  /** The column loop takes nothing away and colours no cluster. */
  lemma {:induction false} LinkLookupColumnsGrows(env: Env, tables: seq<Table>, rels: seq<Relationship>, t: Table,
                                                  st: BuildState, cols: seq<Column>)
    ensures var r := LinkLookupColumns(env, tables, rels, t, st, cols);
      Grows(st, r) && ColoursKept(st, r)
    decreases |cols|
  {
    if cols != [] {
      var prev := LinkLookupColumns(env, tables, rels, t, st, cols[..|cols| - 1]);
      var column := cols[|cols| - 1];
      LinkLookupColumnsGrows(env, tables, rels, t, st, cols[..|cols| - 1]);
      if column.isNonDefaultLookup {
        var r := LinkLookupColumn(env, tables, rels, t, prev, column);
        LinkLookupColumnGrows(env, tables, rels, t, prev, column);
        GrowsTransitive(st, prev, r);
        ColoursKeptTransitive(st, prev, r);
      }
    }
  }

  /** The many-to-many step takes nothing away and colours no cluster. */
  lemma PairManyToManyGrows(env: Env, tables: seq<Table>, rels: seq<Relationship>, manyToManyNames: seq<string>,
                            t: Table, st: BuildState)
    ensures var r := PairManyToMany(env, tables, rels, manyToManyNames, t, st);
      Grows(st, r) && ColoursKept(st, r)
  {
    if t.name in manyToManyNames && ManyToManyPartner(tables, rels, t).Some? && t.primaryColumnEntity.Some? {
      var second := tables[ManyToManyPartner(tables, rels, t).value.tableIndex];
      LinkToGrows(env, st, ClusterKey(env, second.name), second, t, t.primaryColumnEntity.value, ManyToManyLabel);
    }
  }

  /** The keys of the clusters that carry the own-cluster colour. */
  ghost function OwnColoured(g: Graph): set<string>
  {
    set k | k in g.clusters && g.clusters[k].color == Some(OwnClusterColor)
  }

  /** The own-cluster keys of those tables among `ts` that get a cluster of their own. */
  ghost function OwnKeys(env: Env, manyToManyNames: seq<string>, ts: seq<Table>): set<string>
  {
    set i | 0 <= i < |ts| && NeedsCluster(ts[i], manyToManyNames) :: ClusterKey(env, ts[i].name)
  }

  /** A step that keeps every cluster and its colour leaves the own-coloured clusters as they are. */
  lemma KeptColoursKeepOwnClusters(st: BuildState, r: BuildState)
    requires Grows(st, r) && ColoursKept(st, r)
    ensures OwnColoured(r.graph) == OwnColoured(st.graph)
  {
  }

  /** One table adds its own cluster, coloured, when it needs one, and colours nothing else. */
  lemma BuildTableOwnClusters(env: Env, tables: seq<Table>, rels: seq<Relationship>, manyToManyNames: seq<string>,
                              st: BuildState, t: Table)
    ensures var r := BuildTable(env, tables, rels, manyToManyNames, st, t);
      && Grows(st, r)
      && OwnColoured(r.graph) == OwnColoured(st.graph) + (if NeedsCluster(t, manyToManyNames) then {ClusterKey(env, t.name)} else {})
  {
    if NeedsCluster(t, manyToManyNames) {
      var own := ClusterKey(env, t.name);
      var withOwn := st.(graph := WithCluster(st.graph, own, ClusterLabel(t), Some(OwnClusterColor)));
      assert OwnColoured(withOwn.graph) == OwnColoured(st.graph) + {own};
      var linked := LinkLookupColumns(env, tables, rels, t, withOwn, t.columns);
      LinkLookupColumnsGrows(env, tables, rels, t, withOwn, t.columns);
      var r := PairManyToMany(env, tables, rels, manyToManyNames, t, linked);
      PairManyToManyGrows(env, tables, rels, manyToManyNames, t, linked);
      KeptColoursKeepOwnClusters(withOwn, linked);
      KeptColoursKeepOwnClusters(linked, r);
      GrowsTransitive(withOwn, linked, r);
      GrowsTransitive(st, withOwn, r);
    }
  }

  /** The own-cluster keys of a prefix grow by the last table's key when that table gets a cluster. */
  lemma OwnKeysStep(env: Env, manyToManyNames: seq<string>, ts: seq<Table>)
    requires ts != []
    ensures OwnKeys(env, manyToManyNames, ts) ==
      OwnKeys(env, manyToManyNames, ts[..|ts| - 1])
      + (if NeedsCluster(ts[|ts| - 1], manyToManyNames) then {ClusterKey(env, ts[|ts| - 1].name)} else {})
  {
    var init := ts[..|ts| - 1];
    assert forall i :: 0 <= i < |init| ==> init[i] == ts[i];
  }

  /** After the first `|ts|` tables, exactly the own clusters of those needing one are coloured. */
  lemma {:induction false} BuildTablesOwnClusters(env: Env, tables: seq<Table>, rels: seq<Relationship>,
                                                  manyToManyNames: seq<string>, ts: seq<Table>)
    ensures OwnColoured(BuildTables(env, tables, rels, manyToManyNames, ts).graph) == OwnKeys(env, manyToManyNames, ts)
    decreases |ts|
  {
    if ts != [] {
      var prev := BuildTables(env, tables, rels, manyToManyNames, ts[..|ts| - 1]);
      BuildTablesOwnClusters(env, tables, rels, manyToManyNames, ts[..|ts| - 1]);
      BuildTableOwnClusters(env, tables, rels, manyToManyNames, prev, ts[|ts| - 1]);
      OwnKeysStep(env, manyToManyNames, ts);
    }
  }

  /**
   * A cluster of the finished graph carries the own-cluster colour if and only if
   * it is the cluster "cluster_" + name of a table that has a non-default lookup
   * column or is the first entity of a many-to-many relationship.
   */
  lemma OwnClustersExactly(env: Env, tables: seq<Table>, rels: seq<Relationship>, k: string)
    ensures var g := Build(env, tables, rels).graph;
      (k in g.clusters && g.clusters[k].color == Some(OwnClusterColor)) <==>
      exists i :: 0 <= i < |tables| && NeedsCluster(tables[i], ManyToManyNames(rels)) && k == ClusterKey(env, tables[i].name)
  {
    var names := ManyToManyNames(rels);
    var g := BuildTables(env, tables, rels, names, tables).graph;
    BuildTablesOwnClusters(env, tables, rels, names, tables);
    assert k in OwnColoured(g) <==> k in g.clusters && g.clusters[k].color == Some(OwnClusterColor);
    assert k in OwnKeys(env, names, tables) <==>
      exists i :: 0 <= i < |tables| && NeedsCluster(tables[i], names) && k == ClusterKey(env, tables[i].name);
  }

  /**
   * The relationship `source`.`column` -> `target` is present in `st`: the edge and
   * both nodes exist and each node is in its cluster. Unlike Linked, this survives
   * later steps, which may recolour a shared node.
   */
  ghost predicate Drawn(env: Env, st: BuildState, targetCluster: string, sourceCluster: string,
                        target: Table, source: Table, column: Column)
  {
    var keyNode := KeyNodeKey(env, target);
    var columnNode := ColumnNodeKey(env, source, column);
    && RelationshipEdge(env, target, source, column) in st.graph.edges
    && keyNode in st.graph.nodes && targetCluster in st.graph.nodes[keyNode].clusters
    && columnNode in st.graph.nodes && sourceCluster in st.graph.nodes[columnNode].clusters
  }

  /** What is drawn stays drawn as the state grows. */
  lemma DrawnPersists(env: Env, st: BuildState, r: BuildState, targetCluster: string, sourceCluster: string,
                      target: Table, source: Table, column: Column)
    requires Drawn(env, st, targetCluster, sourceCluster, target, source, column)
    requires Grows(st, r)
    ensures Drawn(env, r, targetCluster, sourceCluster, target, source, column)
  {
  }

  /** Every resolved lookup column among `cols` is drawn once the column loop is done. */
  lemma {:induction false} LinkLookupColumnsDraws(env: Env, tables: seq<Table>, rels: seq<Relationship>, t: Table,
                                                  st: BuildState, cols: seq<Column>, j: nat)
    requires j < |cols| && cols[j].isNonDefaultLookup
    requires !ResolveLookup(env, tables, rels, cols[j]).Unresolved?
    ensures var res := ResolveLookup(env, tables, rels, cols[j]);
      Drawn(env, LinkLookupColumns(env, tables, rels, t, st, cols), TargetCluster(env, tables, cols[j], res),
            ClusterKey(env, t.name), tables[res.tableIndex], t, cols[j])
    decreases |cols|
  {
    var res := ResolveLookup(env, tables, rels, cols[j]);
    var target := tables[res.tableIndex];
    var cluster := TargetCluster(env, tables, cols[j], res);
    var prev := LinkLookupColumns(env, tables, rels, t, st, cols[..|cols| - 1]);
    if j == |cols| - 1 {
      LinkToDraws(env, prev, cluster, target, t, cols[j], LookupLabel);
    } else {
      assert cols[..|cols| - 1][j] == cols[j];
      LinkLookupColumnsDraws(env, tables, rels, t, st, cols[..|cols| - 1], j);
      var column := cols[|cols| - 1];
      if column.isNonDefaultLookup {
        LinkLookupColumnGrows(env, tables, rels, t, prev, column);
        DrawnPersists(env, prev, LinkLookupColumn(env, tables, rels, t, prev, column), cluster, ClusterKey(env, t.name), target, t, cols[j]);
      }
    }
  }

  /** A table draws each of its resolved lookup columns. */
  lemma BuildTableDrawsLookup(env: Env, tables: seq<Table>, rels: seq<Relationship>, manyToManyNames: seq<string>,
                              st: BuildState, t: Table, j: nat)
    requires j < |t.columns| && t.columns[j].isNonDefaultLookup
    requires !ResolveLookup(env, tables, rels, t.columns[j]).Unresolved?
    ensures var res := ResolveLookup(env, tables, rels, t.columns[j]);
      Drawn(env, BuildTable(env, tables, rels, manyToManyNames, st, t), TargetCluster(env, tables, t.columns[j], res),
            ClusterKey(env, t.name), tables[res.tableIndex], t, t.columns[j])
  {
    var res := ResolveLookup(env, tables, rels, t.columns[j]);
    assert t.columns[j] in t.columns;
    var withOwn := st.(graph := WithCluster(st.graph, ClusterKey(env, t.name), ClusterLabel(t), Some(OwnClusterColor)));
    var linked := LinkLookupColumns(env, tables, rels, t, withOwn, t.columns);
    LinkLookupColumnsDraws(env, tables, rels, t, withOwn, t.columns, j);
    PairManyToManyGrows(env, tables, rels, manyToManyNames, t, linked);
    DrawnPersists(env, linked, PairManyToMany(env, tables, rels, manyToManyNames, t, linked),
                  TargetCluster(env, tables, t.columns[j], res), ClusterKey(env, t.name), tables[res.tableIndex], t, t.columns[j]);
  }

  /** A many-to-many table with a partner and a primary key column draws the "*|*" relationship. */
  lemma BuildTableDrawsPartner(env: Env, tables: seq<Table>, rels: seq<Relationship>, manyToManyNames: seq<string>,
                               st: BuildState, t: Table)
    requires t.name in manyToManyNames
    requires ManyToManyPartner(tables, rels, t).Some? && t.primaryColumnEntity.Some?
    ensures var second := tables[ManyToManyPartner(tables, rels, t).value.tableIndex];
      Linked(env, BuildTable(env, tables, rels, manyToManyNames, st, t), ClusterKey(env, second.name),
             ClusterKey(env, t.name), second, t, t.primaryColumnEntity.value, ManyToManyLabel)
  {
    var withOwn := st.(graph := WithCluster(st.graph, ClusterKey(env, t.name), ClusterLabel(t), Some(OwnClusterColor)));
    var linked := LinkLookupColumns(env, tables, rels, t, withOwn, t.columns);
    PairedTableIsLinked(env, tables, rels, manyToManyNames, t, linked);
  }

  /** The state after the first `n` tables grows into the state after all of `ts`. */
  lemma {:induction false} BuildTablesGrows(env: Env, tables: seq<Table>, rels: seq<Relationship>,
                                            manyToManyNames: seq<string>, ts: seq<Table>, n: nat)
    requires n <= |ts|
    ensures Grows(BuildTables(env, tables, rels, manyToManyNames, ts[..n]), BuildTables(env, tables, rels, manyToManyNames, ts))
    decreases |ts|
  {
    if n < |ts| {
      var init := ts[..|ts| - 1];
      assert init[..n] == ts[..n];
      BuildTablesGrows(env, tables, rels, manyToManyNames, init, n);
      var prev := BuildTables(env, tables, rels, manyToManyNames, init);
      BuildTableOwnClusters(env, tables, rels, manyToManyNames, prev, ts[|ts| - 1]);
      GrowsTransitive(BuildTables(env, tables, rels, manyToManyNames, ts[..n]), prev,
                      BuildTables(env, tables, rels, manyToManyNames, ts));
    } else {
      assert ts[..n] == ts;
    }
  }

  /** The state after the first `i + 1` tables is the state after `i` tables, then table `i`. */
  lemma BuildTablesPrefix(env: Env, tables: seq<Table>, rels: seq<Relationship>, manyToManyNames: seq<string>, i: nat)
    requires i < |tables|
    ensures BuildTables(env, tables, rels, manyToManyNames, tables[..i + 1])
         == BuildTable(env, tables, rels, manyToManyNames, BuildTables(env, tables, rels, manyToManyNames, tables[..i]), tables[i])
  {
    assert tables[..i + 1][..i] == tables[..i];
  }

  /**
   * Every non-default lookup column of every table that resolves (by tier 1 or
   * tier 2) is drawn in the finished graph: its column node in the table's own
   * cluster, the key node in the target cluster and the edge between them.
   */
  lemma ResolvedLookupsAreDrawn(env: Env, tables: seq<Table>, rels: seq<Relationship>, i: nat, j: nat)
    requires i < |tables| && j < |tables[i].columns| && tables[i].columns[j].isNonDefaultLookup
    requires !ResolveLookup(env, tables, rels, tables[i].columns[j]).Unresolved?
    ensures var res := ResolveLookup(env, tables, rels, tables[i].columns[j]);
      Drawn(env, Build(env, tables, rels), TargetCluster(env, tables, tables[i].columns[j], res),
            ClusterKey(env, tables[i].name), tables[res.tableIndex], tables[i], tables[i].columns[j])
  {
    var names := ManyToManyNames(rels);
    var res := ResolveLookup(env, tables, rels, tables[i].columns[j]);
    var pre := BuildTables(env, tables, rels, names, tables[..i]);
    BuildTablesPrefix(env, tables, rels, names, i);
    BuildTableDrawsLookup(env, tables, rels, names, pre, tables[i], j);
    BuildTablesGrows(env, tables, rels, names, tables, i + 1);
    DrawnPersists(env, BuildTables(env, tables, rels, names, tables[..i + 1]), Build(env, tables, rels),
                  TargetCluster(env, tables, tables[i].columns[j], res), ClusterKey(env, tables[i].name),
                  tables[res.tableIndex], tables[i], tables[i].columns[j]);
  }

  /**
   * Every table named as the first entity of a many-to-many relationship, whose
   * partner is found and which has a primary key column, has its "*|*"
   * relationship drawn in the finished graph.
   */
  lemma PartnersAreDrawn(env: Env, tables: seq<Table>, rels: seq<Relationship>, i: nat)
    requires i < |tables| && tables[i].name in ManyToManyNames(rels)
    requires ManyToManyPartner(tables, rels, tables[i]).Some? && tables[i].primaryColumnEntity.Some?
    ensures var second := tables[ManyToManyPartner(tables, rels, tables[i]).value.tableIndex];
      Drawn(env, Build(env, tables, rels), ClusterKey(env, second.name), ClusterKey(env, tables[i].name),
            second, tables[i], tables[i].primaryColumnEntity.value)
  {
    var names := ManyToManyNames(rels);
    var second := tables[ManyToManyPartner(tables, rels, tables[i]).value.tableIndex];
    var pre := BuildTables(env, tables, rels, names, tables[..i]);
    BuildTablesPrefix(env, tables, rels, names, i);
    BuildTableDrawsPartner(env, tables, rels, names, pre, tables[i]);
    BuildTablesGrows(env, tables, rels, names, tables, i + 1);
    DrawnPersists(env, BuildTables(env, tables, rels, names, tables[..i + 1]), Build(env, tables, rels),
                  ClusterKey(env, second.name), ClusterKey(env, tables[i].name), second, tables[i], tables[i].primaryColumnEntity.value);
  }

  /**
   * A resolved lookup column is linked into the target cluster, labelled after the
   * target table: the cluster "cluster_" + logical name in tier 1, "cluster_" +
   * table name in tier 2, with the "*|1" edge.
   */
  lemma ResolvedColumnIsLinked(env: Env, tables: seq<Table>, rels: seq<Relationship>, t: Table,
                               st: BuildState, column: Column)
    requires !ResolveLookup(env, tables, rels, column).Unresolved?
    ensures var res := ResolveLookup(env, tables, rels, column);
      var r := LinkLookupColumn(env, tables, rels, t, st, column);
      var cluster := TargetCluster(env, tables, column, res);
      && cluster in r.graph.clusters && r.graph.clusters[cluster].text == ClusterLabel(tables[res.tableIndex])
      && Linked(env, r, cluster, ClusterKey(env, t.name), tables[res.tableIndex], t, column, LookupLabel)
  {
    var res := ResolveLookup(env, tables, rels, column);
    LinkToDraws(env, st, TargetCluster(env, tables, column, res), tables[res.tableIndex], t, column, LookupLabel);
  }

  /** When tier 1 finds a table, what a lookup column draws does not depend on the relationships. */
  lemma Tier1LinkIgnoresRelationships(env: Env, tables: seq<Table>, rels1: seq<Relationship>, rels2: seq<Relationship>,
                                      t: Table, st: BuildState, column: Column)
    requires exists i :: 0 <= i < |tables| && env.lower(tables[i].name) == column.logicalName
    ensures LinkLookupColumn(env, tables, rels1, t, st, column) == LinkLookupColumn(env, tables, rels2, t, st, column)
  {
    Tier1IgnoresRelationships(env, tables, rels1, rels2, column);
  }

  /**
   * A many-to-many table with a partner and a primary key column is linked, from
   * its primary key column, into the partner's cluster with the "*|*" edge.
   */
  lemma PairedTableIsLinked(env: Env, tables: seq<Table>, rels: seq<Relationship>, manyToManyNames: seq<string>,
                            t: Table, st: BuildState)
    requires t.name in manyToManyNames
    requires ManyToManyPartner(tables, rels, t).Some? && t.primaryColumnEntity.Some?
    ensures var second := tables[ManyToManyPartner(tables, rels, t).value.tableIndex];
      var r := PairManyToMany(env, tables, rels, manyToManyNames, t, st);
      && ClusterKey(env, second.name) in r.graph.clusters
      && r.graph.clusters[ClusterKey(env, second.name)].text == ClusterLabel(second)
      && Linked(env, r, ClusterKey(env, second.name), ClusterKey(env, t.name), second, t, t.primaryColumnEntity.value, ManyToManyLabel)
  {
    var second := tables[ManyToManyPartner(tables, rels, t).value.tableIndex];
    LinkToDraws(env, st, ClusterKey(env, second.name), second, t, t.primaryColumnEntity.value, ManyToManyLabel);
  }
}
