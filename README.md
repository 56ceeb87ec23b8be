# DataverseGraphBuilder relationship graph, in Dafny

PowerDocu documents a Power Platform solution. Its `DataverseGraphBuilder` draws the
solution's Dataverse tables and their relationships as a Graphviz graph:

- a table that has a non-default lookup column, or that is the first entity of a
  many-to-many relationship, gets a cluster of its own, coloured `#7070E0`;
- each lookup column is resolved to the table it points to, in two tiers. Tier 1
  looks for a table whose lower-cased name is the column's logical name. Tier 2
  takes the first relationship whose lower-cased referencing attribute is the
  column, then the table it references. The column then becomes an edge labelled
  `*|1`, from a node for the column in the table's cluster to a node for the
  target's primary key in the target's cluster;
- a many-to-many table is paired with the second entity of the first relationship
  naming it as first entity, and drawn with an edge labelled `*|*` from its own
  primary key column;
- all elements are fetched or created by key (get-or-add). Each lookup column's
  nodes and edge share one colour from a 14-entry palette. The colour is handed out
  on first request and cycles once the palette is used up.

The model has these modules:

- `Metadata` holds the tables, columns and relationships. It also holds the
  list-order searches `Find` and `ManyToManyNames`.
- `Lookup` holds the two-tier resolution and the many-to-many partner search.
- `Colors` holds the colour allocator `getHexColor`.
- `GraphStore` holds the graph as three dictionaries, plus its get-or-add steps.
- `Assembly` holds the whole build as functions on values, with its properties.
  `Invariants` holds what every intermediate state satisfies.
- `Builder` holds the class `DataverseGraphBuilder`. Its fields are updated in place
  by methods proved to produce the states the `Assembly` functions describe.
- `Scenarios` holds a concrete solution.

`CharsetHelper.GetSafeName` and `String.ToLower` are given no meaning. They are the
two functions of an `Env` value that every operation takes.

A many-to-many relationship listed from both sides gives two `*|*` edges, one per
side: both tables are then many-to-many tables, and each draws its own edge with its
own name. `Scenarios.SymmetricManyToManyGivesTwoEdges` shows the two
edges. Only the table name and the referencing attribute are lower-cased. The column's
logical name is compared as it is. The pairing search takes the first relationship
of any type whose first entity is the table, not just a many-to-many one.

## Model

| member | source | states |
|---|---|---|
| Metadata.Find | PowerDocu.SolutionDocumenter/DataverseGraphBuilder.cs:83-85 | the result is the index of the first element, in list order, that satisfies the test; None exactly when no element does |
| Metadata.ManyToManyNames | PowerDocu.SolutionDocumenter/DataverseGraphBuilder.cs:51-54 | a name is in the list if and only if some relationship of type "ManyToMany" has it as first entity |
| Metadata.NeedsCluster | PowerDocu.SolutionDocumenter/DataverseGraphBuilder.cs:57-61 | the filter of the outer loop: some column is a non-default lookup, or the name is in the many-to-many list; no contract of its own, its effect is stated by Assembly.BuildTable, Assembly.BuildTableOwnClusters and Assembly.OwnClustersExactly |
| Lookup.ResolveLookup | PowerDocu.SolutionDocumenter/DataverseGraphBuilder.cs:83-113 | tier 1 is the first table whose lower-cased name equals the logical name; tier 2 is used exactly when tier 1 finds nothing, with the first relationship whose lower-cased referencing attribute matches and the first table named as its referenced entity; unresolved exactly when tier 1 fails and the first matching relationship (if any) names no table |
| Lookup.Tier1IgnoresRelationships | PowerDocu.SolutionDocumenter/DataverseGraphBuilder.cs:83-88 | when tier 1 finds a table, the relationships do not affect the resolution |
| Lookup.ManyToManyPartner | PowerDocu.SolutionDocumenter/DataverseGraphBuilder.cs:127-135 | the partner comes from the first relationship of any type whose first entity is the table, and is the first table named as its second entity; None exactly when no such table exists |
| Colors.Allocate | PowerDocu.SolutionDocumenter/DataverseGraphBuilder.cs:258-282 | a stored name gets its stored colour; a new name gets the slot for the number of names stored and is added; earlier entries are kept; the key set grows by exactly the name |
| Colors.HexColor | PowerDocu.SolutionDocumenter/DataverseGraphBuilder.cs:257-283 | if every stored colour is a palette colour, so is the result, and so is every stored colour afterwards |
| Colors.HexColorCases | PowerDocu.SolutionDocumenter/DataverseGraphBuilder.cs:258-280 | a stored name gets (stored colour, same dictionary); a new name gets palette entry (count mod 14) and the dictionary with that one entry added |
| Colors.RepeatedRequestIsStable | PowerDocu.SolutionDocumenter/DataverseGraphBuilder.cs:258-260 | asking again for a name just coloured returns the same colour and leaves the dictionary unchanged |
| Colors.PaletteColourIsNotEmpty | PowerDocu.SolutionDocumenter/DataverseGraphBuilder.cs:262-278 | every palette colour is a 7-character string, so a stored colour never counts as empty |
| Colors.DistinctNamesTakeSuccessiveSlots | PowerDocu.SolutionDocumenter/DataverseGraphBuilder.cs:278-279 | distinct new names requested one after another get the successive slots after the names already stored |
| Colors.FreshNamesGetDistinctColors | PowerDocu.SolutionDocumenter/DataverseGraphBuilder.cs:262-279 | up to fourteen distinct names requested on an empty dictionary get pairwise different colours |
| Colors.FifteenthNameWrapsAround | PowerDocu.SolutionDocumenter/DataverseGraphBuilder.cs:278 | the fifteenth distinct name gets the first name's colour: the palette cycles |
| GraphStore.WithCluster | PowerDocu.SolutionDocumenter/DataverseGraphBuilder.cs:213-222 | the cluster key is present, other clusters and all nodes and edges are unchanged, the label is set, and the colour changes only when one is given |
| GraphStore.WithNode | PowerDocu.SolutionDocumenter/DataverseGraphBuilder.cs:224-230 | the node key is present with the new label and fill, it joins the sub-graph and stays in its earlier ones, and nothing else changes |
| GraphStore.WithEdge | PowerDocu.SolutionDocumenter/DataverseGraphBuilder.cs:232-239 | the edge (from, to, name) is present with the given colour, pen width and label, and nothing else changes |
| GraphStore.RepeatedClusterRequest | PowerDocu.SolutionDocumenter/DataverseGraphBuilder.cs:213-222 | two requests for one cluster key give one cluster with the last label; its colour is the last one given, else the earlier one |
| GraphStore.RepeatedNodeRequest | PowerDocu.SolutionDocumenter/DataverseGraphBuilder.cs:224-230 | two requests for one node key give one node with the last label and fill, in both sub-graphs |
| GraphStore.RepeatedEdgeRequest | PowerDocu.SolutionDocumenter/DataverseGraphBuilder.cs:232-239 | a repeated edge request gives the same graph as the last request alone |
| GraphStore.RootGraph.constructor | PowerDocu.SolutionDocumenter/DataverseGraphBuilder.cs:26-29 | a new root graph has no clusters, nodes or edges |
| Assembly.NodeRelationship | PowerDocu.SolutionDocumenter/DataverseGraphBuilder.cs:166-210 | the dictionary is the allocator's after coloring the logical name, and both nodes and the edge exist with that colour, pen width 3, the given label and their clusters |
| Assembly.NodeRelationshipLabels | PowerDocu.SolutionDocumenter/DataverseGraphBuilder.cs:183-195 | the column node is labelled with the sanitised display name, and the key node, when it is a different node, with the sanitised primary column followed by " (Key)" |
| Assembly.NodeRelationshipFrame | PowerDocu.SolutionDocumenter/DataverseGraphBuilder.cs:181-209 | exactly the two node keys and the one edge key are added, and every other node and edge keeps all its attributes |
| Assembly.NodeRelationshipGrows | PowerDocu.SolutionDocumenter/DataverseGraphBuilder.cs:183-209 | clusters are untouched, and no node, edge, cluster membership or stored colour is lost |
| Assembly.LinkTo | PowerDocu.SolutionDocumenter/DataverseGraphBuilder.cs:100-110 | the target cluster exists, labelled after the target table, and the dictionary is the allocator's |
| Assembly.LinkToDraws | PowerDocu.SolutionDocumenter/DataverseGraphBuilder.cs:100-110 | the relationship is drawn between the target cluster and the source table's own cluster |
| Assembly.LinkToGrows | PowerDocu.SolutionDocumenter/DataverseGraphBuilder.cs:100-110 | exactly the target cluster key is added, uncoloured if new; nothing is lost and no cluster's colour changes |
| Assembly.LinkLookupColumn | PowerDocu.SolutionDocumenter/DataverseGraphBuilder.cs:83-121 | an unresolved column leaves graph and colours unchanged |
| Assembly.ResolvedColumnIsLinked | PowerDocu.SolutionDocumenter/DataverseGraphBuilder.cs:100-121 | a resolved column is linked, with "*|1", into "cluster_"+logical name (tier 1) or "cluster_"+table name (tier 2), labelled after the target |
| Assembly.Tier1LinkIgnoresRelationships | PowerDocu.SolutionDocumenter/DataverseGraphBuilder.cs:114-121 | when tier 1 succeeds, what the column draws is the same whatever the relationships |
| Assembly.LinkLookupColumnGrows | PowerDocu.SolutionDocumenter/DataverseGraphBuilder.cs:83-121 | one column loses nothing and colours no cluster |
| Assembly.LinkLookupColumns | PowerDocu.SolutionDocumenter/DataverseGraphBuilder.cs:70-122 | the column loop, over the non-default lookup columns in order; no contract of its own, its properties are Assembly.LinkLookupColumnsGrows and Assembly.LinkLookupColumnsDraws |
| Assembly.LinkLookupColumnsGrows | PowerDocu.SolutionDocumenter/DataverseGraphBuilder.cs:70-122 | the column loop loses nothing and colours no cluster |
| Assembly.LinkLookupColumnsDraws | PowerDocu.SolutionDocumenter/DataverseGraphBuilder.cs:70-122 | after the column loop every resolved non-default lookup column is drawn |
| Assembly.PairManyToMany | PowerDocu.SolutionDocumenter/DataverseGraphBuilder.cs:126-158 | nothing changes for a table not in the many-to-many list, without a partner or without a primary key column |
| Assembly.PairedTableIsLinked | PowerDocu.SolutionDocumenter/DataverseGraphBuilder.cs:126-158 | otherwise the table's primary key column is linked with "*|*" into the partner's cluster, labelled after the partner |
| Assembly.PairManyToManyGrows | PowerDocu.SolutionDocumenter/DataverseGraphBuilder.cs:126-158 | the many-to-many step loses nothing and colours no cluster |
| Assembly.BuildTable | PowerDocu.SolutionDocumenter/DataverseGraphBuilder.cs:57-61 | a table that has no non-default lookup column and is not a many-to-many first entity changes nothing |
| Assembly.BuildTables | PowerDocu.SolutionDocumenter/DataverseGraphBuilder.cs:57-160 | the outer loop over the tables in order, from the empty graph and dictionary; no contract of its own, its properties are Assembly.BuildTablesOwnClusters, Assembly.BuildTablesGrows and Invariants.BuildTablesConsistent |
| Assembly.Build | PowerDocu.SolutionDocumenter/DataverseGraphBuilder.cs:49-159 | buildGraph without layout and export; no contract of its own, its properties are Assembly.OwnClustersExactly, Assembly.ResolvedLookupsAreDrawn, Assembly.PartnersAreDrawn and Invariants.BuildConsistent |
| Assembly.BuildTableOwnClusters | PowerDocu.SolutionDocumenter/DataverseGraphBuilder.cs:57-67 | one table adds its own "cluster_"+name to the #7070E0 clusters exactly when it needs a cluster, and colours nothing else |
| Assembly.BuildTablesOwnClusters | PowerDocu.SolutionDocumenter/DataverseGraphBuilder.cs:57-67 | after any prefix of the tables, the #7070E0 clusters are exactly the own clusters of that prefix's qualifying tables |
| Assembly.OwnClustersExactly | PowerDocu.SolutionDocumenter/DataverseGraphBuilder.cs:51-67 | in the finished graph a cluster has colour #7070E0 if and only if it is "cluster_"+name of a table with a non-default lookup column or named as a many-to-many first entity |
| Assembly.BuildTableDrawsLookup | PowerDocu.SolutionDocumenter/DataverseGraphBuilder.cs:70-122 | a table's pass draws each of its resolved lookup columns |
| Assembly.BuildTableDrawsPartner | PowerDocu.SolutionDocumenter/DataverseGraphBuilder.cs:126-158 | a paired many-to-many table's pass links its primary key column into the partner's cluster: both nodes in their clusters filled with the column's colour, and the edge in that colour with pen width 3 and label "*|*" |
| Assembly.BuildTablesGrows | PowerDocu.SolutionDocumenter/DataverseGraphBuilder.cs:57-159 | later tables never remove what earlier tables drew |
| Assembly.ResolvedLookupsAreDrawn | PowerDocu.SolutionDocumenter/DataverseGraphBuilder.cs:57-122 | in the finished graph every resolved non-default lookup column of every table has its edge and both nodes in their clusters |
| Assembly.PartnersAreDrawn | PowerDocu.SolutionDocumenter/DataverseGraphBuilder.cs:125-158 | in the finished graph every paired many-to-many table with a primary key column has its edge and both nodes in their clusters |
| Invariants.WithClusterKeeps | PowerDocu.SolutionDocumenter/DataverseGraphBuilder.cs:213-222 | fetching a cluster with no colour or the own colour keeps the graph well formed |
| Invariants.WithNodeKeeps | PowerDocu.SolutionDocumenter/DataverseGraphBuilder.cs:224-230 | placing a palette-coloured node in an existing cluster keeps the graph well formed |
| Invariants.WithEdgeKeeps | PowerDocu.SolutionDocumenter/DataverseGraphBuilder.cs:232-239 | a relationship edge between existing nodes keeps the graph well formed |
| Invariants.HexColorStores | PowerDocu.SolutionDocumenter/DataverseGraphBuilder.cs:276-282 | the colour returned is stored and no stored colour is lost |
| Invariants.NodeRelationshipConsistent | PowerDocu.SolutionDocumenter/DataverseGraphBuilder.cs:166-210 | drawing between existing clusters keeps the state consistent |
| Invariants.BuildTableConsistent | PowerDocu.SolutionDocumenter/DataverseGraphBuilder.cs:57-159 | one pass of the outer loop keeps the state consistent |
| Invariants.BuildConsistent | PowerDocu.SolutionDocumenter/DataverseGraphBuilder.cs:49-159 | in the finished graph only own clusters are coloured, nodes are in existing clusters, edges join existing nodes with pen width 3 and label "*|1" or "*|*", and every colour is a palette colour handed out by the allocator |
| Builder.DataverseGraphBuilder.constructor | PowerDocu.SolutionDocumenter/DataverseGraphBuilder.cs:17-22 | the new builder holds exactly the graph and dictionary the whole build describes, and every stored colour is a palette colour |
| Builder.DataverseGraphBuilder.GetHexColor | PowerDocu.SolutionDocumenter/DataverseGraphBuilder.cs:257-283 | the returned colour and the new dictionary are the allocator's; stored colours stay palette colours |
| Builder.DataverseGraphBuilder.CreateSubGraph | PowerDocu.SolutionDocumenter/DataverseGraphBuilder.cs:213-222 | the root graph becomes WithCluster of the old one under the sanitised key |
| Builder.DataverseGraphBuilder.CreateNode | PowerDocu.SolutionDocumenter/DataverseGraphBuilder.cs:224-230 | the root graph becomes WithNode of the old one under the sanitised key, with the sanitised label |
| Builder.DataverseGraphBuilder.CreateEdge | PowerDocu.SolutionDocumenter/DataverseGraphBuilder.cs:232-239 | the root graph becomes WithEdge of the old one for (from, to, name) |
| Builder.DataverseGraphBuilder.CreateNodeRelationship | PowerDocu.SolutionDocumenter/DataverseGraphBuilder.cs:166-210 | the new state is NodeRelationship of the old state |
| Builder.DataverseGraphBuilder.DrawLookupColumn | PowerDocu.SolutionDocumenter/DataverseGraphBuilder.cs:83-121 | the new state is LinkLookupColumn of the old state |
| Builder.DataverseGraphBuilder.DrawLookupColumns | PowerDocu.SolutionDocumenter/DataverseGraphBuilder.cs:70-122 | the new state is LinkLookupColumns of the old state over all the table's columns |
| Builder.DataverseGraphBuilder.DrawManyToMany | PowerDocu.SolutionDocumenter/DataverseGraphBuilder.cs:125-158 | the new state is PairManyToMany of the old state |
| Builder.DataverseGraphBuilder.DrawTable | PowerDocu.SolutionDocumenter/DataverseGraphBuilder.cs:62-158 | the new state is BuildTable of the old state |
| Builder.DataverseGraphBuilder.BuildGraph | PowerDocu.SolutionDocumenter/DataverseGraphBuilder.cs:24-160 | the final state is Build of the tables and relationships, and every stored colour is a palette colour |
| Scenarios.PairingPassDrawsOneEdge | PowerDocu.SolutionDocumenter/DataverseGraphBuilder.cs:57-158 | the pass of a paired many-to-many table with no columns adds exactly one edge, its "*|*" edge, and every other edge keeps its attributes |
| Scenarios.SymmetricManyToManyGivesTwoEdges | PowerDocu.SolutionDocumenter/DataverseGraphBuilder.cs:126-156 | a many-to-many relationship listed from both sides gives two different "*|*" edges, one per side |

## Left out

- Root graph setup (lines 26-47): the graph's name, its undirected type and the
  default attributes are styling handed to Graphviz. A new root graph is modelled as
  empty, and a cluster colour of None stands for the root default.
- Layout and export (lines 162-163, 241-255) run the Graphviz engine and write files.
  The commented-out SVG-to-PNG code is dead.
- Creating the output folder (line 20) is left out. So is reading the tables and
  relationships from the solution content (lines 49-50): the two lists are
  parameters of the constructor.
- Console warnings (lines 79, 140) are left out. Only their effect, skipping the item, is modelled.
- The null-column branch (lines 77-81) is not modelled. It is unreachable: the filter
  at line 73 calls a method on every column first, so a null column throws there.
  Columns are plain values.
- Null arguments and null strings are left out. These are the exceptions at lines
  168-180 and 197-200, and the null references that ToLower or Equals would hit. All
  values are non-null. CreateNode never returns null. The same goes for the test of
  the target sub-graph at line 148: GetOrAddSubgraph never returns null, so the
  test always passes.
- `CharsetHelper.GetSafeName` and `String.ToLower` are not part of this model. Their
  definitions are not available, so they are arbitrary functions in `Env`.
- `TableEntity.containsNonDefaultLookupColumns` is not part of this model. It is
  taken to mean "some column is a non-default lookup", the test line 73 applies to
  each column.
- Graphviz edges are keyed by (from node, to node, name) in that order. Whether the
  library's undirected GetOrAddEdge would also find an edge stored the other way
  round is not modelled.
- The local palette array of getHexColor (lines 262-278) is the function
  `Colors.PaletteColor`.
- Exceptions from Dictionary.Add (line 280) cannot occur. A stored colour is never
  empty, so Add is reached only for a new name. GetHexColor proves this from the
  invariant `Valid`.
- Builder.DataverseGraphBuilder.BuildGraph: requires an empty colour dictionary. The
  constructor is its only caller, so that is the state it always starts from.
- Assembly.ResolvedLookupsAreDrawn: states that the edge and both nodes are present
  in the finished graph, not their final colours or labels. A later relationship that
  shares a node key overwrites its label and fill, as the code does.
