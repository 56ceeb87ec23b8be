/**
 * DataverseGraphBuilder: the object that fills a Graphviz root graph with one
 * cluster per table that takes part in a relationship, one node per column at
 * either end of a relationship and one edge per relationship, colouring each
 * lookup column's nodes and edge from its own palette slot. Each method is
 * proved to leave the state the functions of module Assembly describe.
 */
module Builder {
  import opened Wrappers
  import opened Metadata
  import opened GraphStore
  import opened Colors
  import opened Lookup
  import opened Assembly

  class DataverseGraphBuilder {
    /** Name sanitisation and lower-casing, which this model takes as given. */
    const env: Env
    /** Lookup column logical name -> the colour handed out for it. */
    var entityColors: map<string, string>
    var tableEntities: seq<Table>
    var entityRelationships: seq<Relationship>
    var rootGraph: RootGraph

    /** Every stored colour is a palette colour. */
    ghost predicate Valid()
      reads this
    {
      ValidColors(entityColors)
    }

    /** The graph and the colour dictionary, as a value. */
    function State(): BuildState
      reads this, rootGraph
    {
      BuildState(rootGraph.Value(), entityColors)
    }

    /**
     * Builds the graph for the given tables and relationships. The solution content
     * is reduced to those two lists; creating the output folder is not modelled.
     */
    constructor (tables: seq<Table>, rels: seq<Relationship>, env: Env)
      ensures State() == Build(env, tables, rels)
      ensures tableEntities == tables && entityRelationships == rels
      ensures Valid()
    {
      this.env := env;
      entityColors := map[];
      tableEntities := [];
      entityRelationships := [];
      rootGraph := new RootGraph();
      new;
      BuildGraph(tables, rels);
    }

    /**
     * getHexColor: the colour already stored for `lookupColumnName` or, when there
     * is none, the palette entry for the number of stored names, which is stored.
     */
    method GetHexColor(lookupColumnName: string) returns (colour: string)
      requires Valid()
      modifies this
      ensures (colour, entityColors) == HexColor(old(entityColors), lookupColumnName)
      ensures Valid()
      ensures rootGraph == old(rootGraph) && tableEntities == old(tableEntities)
      ensures entityRelationships == old(entityRelationships)
    {
      // TryGetValue leaves the out value null when the name is not stored.
      var stored: Option<string> := if lookupColumnName in entityColors then Some(entityColors[lookupColumnName]) else None;
      if stored.None? || stored.value == "" {
        if lookupColumnName in entityColors {
          // A stored colour is a palette entry, never empty: Add cannot meet an existing name.
          PaletteColourIsNotEmpty(entityColors[lookupColumnName]);
          assert false;
        }
        colour := PaletteColor(|entityColors| % PaletteSize);
        entityColors := entityColors[lookupColumnName := colour];
      } else {
        colour := stored.value;
      }
    }

    /**
     * CreateSubGraph: fetch or create the sub-graph with the sanitised name, set its
     * label and, only when one is given, its colour. Returns the sub-graph's key.
     */
    method CreateSubGraph(clusterName: string, text: string, color: Option<string>) returns (subGraph: string)
      modifies rootGraph
      ensures subGraph == env.safe(clusterName)
      ensures rootGraph.Value() == WithCluster(old(rootGraph.Value()), subGraph, text, color)
    {
      subGraph := env.safe(clusterName);
      if subGraph !in rootGraph.clusters {
        rootGraph.clusters := rootGraph.clusters[subGraph := NewCluster];
      }
      rootGraph.clusters := rootGraph.clusters[subGraph := rootGraph.clusters[subGraph].(text := text)];
      if color.Some? {
        rootGraph.clusters := rootGraph.clusters[subGraph := rootGraph.clusters[subGraph].(color := color)];
      }
    }

    /**
     * CreateNode: fetch or create the node with the sanitised name, place it in
     * `subGraph`, and set its sanitised label and its fill colour. Returns its key.
     */
    method CreateNode(subGraph: string, nodeName: string, text: string, fillColor: string) returns (node: string)
      modifies rootGraph
      ensures node == env.safe(nodeName)
      ensures rootGraph.Value() == WithNode(old(rootGraph.Value()), subGraph, node, env.safe(text), fillColor)
    {
      node := env.safe(nodeName);
      if node !in rootGraph.nodes {
        rootGraph.nodes := rootGraph.nodes[node := NewNode];
      }
      rootGraph.nodes := rootGraph.nodes[node := rootGraph.nodes[node].(clusters := rootGraph.nodes[node].clusters + {subGraph})];
      rootGraph.nodes := rootGraph.nodes[node := rootGraph.nodes[node].(text := env.safe(text))];
      rootGraph.nodes := rootGraph.nodes[node := rootGraph.nodes[node].(fillColor := fillColor)];
    }

    /** CreateEdge: fetch or create the edge (from, to, name), then set colour, pen width and label. */
    method CreateEdge(fromNode: string, toNode: string, name: string, color: string, penWidth: string, text: string)
      returns (edge: EdgeKey)
      modifies rootGraph
      ensures edge == EdgeKey(fromNode, toNode, name)
      ensures rootGraph.Value() == WithEdge(old(rootGraph.Value()), edge, color, penWidth, text)
    {
      edge := EdgeKey(fromNode, toNode, name);
      if edge !in rootGraph.edges {
        rootGraph.edges := rootGraph.edges[edge := Edge("", "", "")];
      }
      rootGraph.edges := rootGraph.edges[edge := rootGraph.edges[edge].(color := color)];
      rootGraph.edges := rootGraph.edges[edge := rootGraph.edges[edge].(penwidth := penWidth)];
      rootGraph.edges := rootGraph.edges[edge := rootGraph.edges[edge].(text := text)];
    }

    /**
     * createNodeRelationship: one colour for the lookup column, the key node of the
     * table looked up in its cluster, the column node in the current table's
     * cluster, and the edge from the column node to the key node.
     */
    method CreateNodeRelationship(lookupTableGraph: string, currentTableGraph: string, lookupTableEntity: Table,
                                  tableEntity: Table, lookupColumn: Column, edgeLabel: string)
      requires Valid()
      modifies this, rootGraph
      ensures State() == NodeRelationship(env, old(State()), lookupTableGraph, currentTableGraph,
                                          lookupTableEntity, tableEntity, lookupColumn, edgeLabel)
      ensures Valid()
      ensures rootGraph == old(rootGraph) && tableEntities == old(tableEntities)
      ensures entityRelationships == old(entityRelationships)
    {
      var nodeEdgeColor := GetHexColor(lookupColumn.logicalName);
      var primaryColumnNode := CreateNode(lookupTableGraph, lookupTableEntity.name + "-" + lookupTableEntity.primaryColumn,
                                          lookupTableEntity.primaryColumn + " (Key)", nodeEdgeColor);
      var lookupColumnNode := CreateNode(currentTableGraph, tableEntity.name + "-" + lookupColumn.displayName,
                                         lookupColumn.displayName, nodeEdgeColor);
      var _ := CreateEdge(lookupColumnNode, primaryColumnNode,
                          "Lookup " + tableEntity.localizedName + " - " + lookupColumn.displayName + " - " + lookupColumn.logicalName,
                          nodeEdgeColor, RelationshipPenWidth, edgeLabel);
    }
  
    /**
     * The body of the lookup-column loop (lines 83-121): tier 1 looks for a table
     * whose lower-cased name is the column's logical name and draws into the
     * cluster named after the column; failing that, tier 2 takes the first
     * relationship whose lower-cased referencing attribute is the column, finds its
     * referenced table and draws into the cluster named after that table.
     */
    method DrawLookupColumn(tableEntity: Table, lookupColumn: Column, currentTableGraph: string)
      requires Valid() && currentTableGraph == ClusterKey(env, tableEntity.name)
      modifies this, rootGraph
      ensures State() == LinkLookupColumn(env, tableEntities, entityRelationships, tableEntity, old(State()), lookupColumn)
      ensures Valid()
      ensures rootGraph == old(rootGraph) && tableEntities == old(tableEntities)
      ensures entityRelationships == old(entityRelationships)
    {
      var lookupTableEntity := Find(tableEntities, LowerNameIs(env, lookupColumn.logicalName));
      if lookupTableEntity.None? {
        var entityRelationship := Find(entityRelationships, ReferencingAttributeIs(env, lookupColumn.logicalName));
        if entityRelationship.Some? {
          var referenced := entityRelationships[entityRelationship.value].referencedEntityName;
          var found := Find(tableEntities, NameIs(referenced));
          if found.Some? {
            ghost var res := ViaRelationship(entityRelationship.value, found.value);
            assert ResolveLookup(env, tableEntities, entityRelationships, lookupColumn) == res;
            var target := tableEntities[found.value];
            // Lines 102-108 fetch the sub-graph and set its label inline, which is CreateSubGraph with no colour.
            var lookupTableGraph := CreateSubGraph("cluster_" + target.name, ClusterLabel(target), None);
            assert lookupTableGraph == TargetCluster(env, tableEntities, lookupColumn, res);
            CreateNodeRelationship(lookupTableGraph, currentTableGraph, target, tableEntity, lookupColumn, LookupLabel);
          }
        }
      } else {
        ghost var res := Direct(lookupTableEntity.value);
        assert ResolveLookup(env, tableEntities, entityRelationships, lookupColumn) == res;
        var target := tableEntities[lookupTableEntity.value];
        var lookupTableGraph := CreateSubGraph("cluster_" + lookupColumn.logicalName, ClusterLabel(target), None);
        assert lookupTableGraph == TargetCluster(env, tableEntities, lookupColumn, res);
        CreateNodeRelationship(lookupTableGraph, currentTableGraph, target, tableEntity, lookupColumn, LookupLabel);
      }
    }

    /**
     * The many-to-many step (lines 125-158): the second entity of the first
     * relationship whose first entity is the table, the first table of that name,
     * and the "*|*" relationship from the table's primary key column; a table
     * without a primary key column is skipped.
     */
    method DrawManyToMany(tableEntity: Table, manyToManyEntityNames: seq<string>, currentTableGraph: string)
      requires Valid() && currentTableGraph == ClusterKey(env, tableEntity.name)
      modifies this, rootGraph
      ensures State() == PairManyToMany(env, tableEntities, entityRelationships, manyToManyEntityNames, tableEntity, old(State()))
      ensures Valid()
      ensures rootGraph == old(rootGraph) && tableEntities == old(tableEntities)
      ensures entityRelationships == old(entityRelationships)
    {
      if tableEntity.name in manyToManyEntityNames {
        var relationship := Find(entityRelationships, FirstEntityIs(tableEntity.name));
        if relationship.Some? {
          var second := entityRelationships[relationship.value].secondEntityName;
          var found := Find(tableEntities, NameIs(second));
          if found.Some? {
            var idColumn := tableEntity.primaryColumnEntity;
            if idColumn.None? {
              return;
            }
            var secondTableEntity := tableEntities[found.value];
            var lookupTableGraph := CreateSubGraph("cluster_" + secondTableEntity.name, ClusterLabel(secondTableEntity), None);
            CreateNodeRelationship(lookupTableGraph, currentTableGraph, secondTableEntity, tableEntity, idColumn.value, ManyToManyLabel);
          }
        }
      }
    }

    /** The loop of lines 70-122 over the table's columns; columns that are not non-default lookups are skipped. */
    method DrawLookupColumns(tableEntity: Table, currentTableGraph: string)
      requires Valid() && currentTableGraph == ClusterKey(env, tableEntity.name)
      modifies this, rootGraph
      ensures State() == LinkLookupColumns(env, tableEntities, entityRelationships, tableEntity, old(State()), tableEntity.columns)
      ensures Valid()
      ensures rootGraph == old(rootGraph) && tableEntities == old(tableEntities)
      ensures entityRelationships == old(entityRelationships)
    {
      var columns := tableEntity.columns;
      var j := 0;
      while j < |columns|
        invariant 0 <= j <= |columns|
        invariant rootGraph == old(rootGraph) && tableEntities == old(tableEntities)
        invariant entityRelationships == old(entityRelationships)
        invariant Valid()
        invariant State() == LinkLookupColumns(env, tableEntities, entityRelationships, tableEntity, old(State()), columns[..j])
      {
        assert columns[..j + 1][..j] == columns[..j];
        if columns[j].isNonDefaultLookup {
          DrawLookupColumn(tableEntity, columns[j], currentTableGraph);
        }
        j := j + 1;
      }
      assert columns[..j] == columns;
    }

    /**
     * One pass of the outer loop (lines 57-159) for a table that passed the filter
     * of line 59: its own cluster in the own-cluster colour, the loop over its
     * non-default lookup columns, then its many-to-many relationship.
     */
    method DrawTable(tableEntity: Table, manyToManyEntityNames: seq<string>)
      requires Valid() && NeedsCluster(tableEntity, manyToManyEntityNames)
      modifies this, rootGraph
      ensures State() == BuildTable(env, tableEntities, entityRelationships, manyToManyEntityNames, old(State()), tableEntity)
      ensures Valid()
      ensures rootGraph == old(rootGraph) && tableEntities == old(tableEntities)
      ensures entityRelationships == old(entityRelationships)
    {
      var currentTableGraph := CreateSubGraph("cluster_" + tableEntity.name, ClusterLabel(tableEntity), Some(OwnClusterColor));
      DrawLookupColumns(tableEntity, currentTableGraph);
      DrawManyToMany(tableEntity, manyToManyEntityNames, currentTableGraph);
    }

    /**
     * buildGraph up to, not including, layout and export: a fresh root graph, then
     * for each table with a non-default lookup column or named as the first entity
     * of a many-to-many relationship, its own cluster, its lookup relationships and
     * its many-to-many relationship.
     */
    method BuildGraph(tables: seq<Table>, rels: seq<Relationship>)
      requires entityColors == map[]
      modifies this
      ensures State() == Build(env, tables, rels)
      ensures tableEntities == tables && entityRelationships == rels
      ensures Valid()
    {
      rootGraph := new RootGraph();
      tableEntities := tables;
      entityRelationships := rels;
      var manyToManyEntityNames := ManyToManyNames(rels);
      var i := 0;
      while i < |tableEntities|
        invariant 0 <= i <= |tables|
        invariant tableEntities == tables && entityRelationships == rels && fresh(rootGraph)
        invariant Valid()
        invariant State() == BuildTables(env, tables, rels, manyToManyEntityNames, tables[..i])
      {
        BuildTablesPrefix(env, tables, rels, manyToManyEntityNames, i);
        var tableEntity := tableEntities[i];
        if HasNonDefaultLookup(tableEntity) || tableEntity.name in manyToManyEntityNames {
          DrawTable(tableEntity, manyToManyEntityNames);
        }
        i := i + 1;
      }
      assert tables[..i] == tables;
    }
  }
}
