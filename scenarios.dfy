/**
 * Small concrete solutions that show what the builder does in cases that are
 * easy to misread.
 */
module Scenarios {
  import opened Wrappers
  import opened Metadata
  import opened GraphStore
  import opened Lookup
  import opened Assembly

  const ContactId := Column("contactid", "Contact", false)
  const ListId := Column("listid", "List", false)
  const Contact := Table("contact", "Contact", "contactid", Some(ContactId), [])
  const MarketingList := Table("list", "Marketing List", "listid", Some(ListId), [])

  /** A many-to-many relationship recorded once from each side. */
  const SymmetricPair := [
    Relationship(ManyToManyType, "contact", "list", "", ""),
    Relationship(ManyToManyType, "list", "contact", "", "")
  ]

  /**
   * The pass of a table with no columns that is paired with a many-to-many
   * partner: its "*|*" edge is the only edge added, and every other edge keeps its attributes.
   */
  lemma PairingPassDrawsOneEdge(env: Env, tables: seq<Table>, rels: seq<Relationship>, names: seq<string>,
                                st: BuildState, t: Table)
    requires t.columns == [] && t.name in names
    requires ManyToManyPartner(tables, rels, t).Some? && t.primaryColumnEntity.Some?
    ensures var second := tables[ManyToManyPartner(tables, rels, t).value.tableIndex];
      var edge := RelationshipEdge(env, second, t, t.primaryColumnEntity.value);
      var r := BuildTable(env, tables, rels, names, st, t);
      && r.graph.edges.Keys == st.graph.edges.Keys + {edge}
      && edge in r.graph.edges && r.graph.edges[edge].text == ManyToManyLabel
      && (forall e :: e in st.graph.edges && e != edge ==> e in r.graph.edges && r.graph.edges[e] == st.graph.edges[e])
  {
    var second := tables[ManyToManyPartner(tables, rels, t).value.tableIndex];
    var id := t.primaryColumnEntity.value;
    var withOwn := st.(graph := WithCluster(st.graph, ClusterKey(env, t.name), ClusterLabel(t), Some(OwnClusterColor)));
    assert LinkLookupColumns(env, tables, rels, t, withOwn, t.columns) == withOwn;
    PairedTableIsLinked(env, tables, rels, names, t, withOwn);
    var target := ClusterKey(env, second.name);
    var g := WithCluster(withOwn.graph, target, ClusterLabel(second), None);
    NodeRelationshipFrame(env, withOwn.(graph := g), target, ClusterKey(env, t.name), second, t, id, ManyToManyLabel);
  }

  /** Contact's partner is the marketing list, through the first relationship. */
  lemma ContactPairsWithList()
    ensures ManyToManyPartner([Contact, MarketingList], SymmetricPair, Contact) == Some(Partner(0, 1))
  {
    assert FirstEntityIs(Contact.name)(SymmetricPair[0]);
    assert NameIs(SymmetricPair[0].secondEntityName)([Contact, MarketingList][1]);
  }

  /** The marketing list's partner is Contact, through the second relationship. */
  lemma ListPairsWithContact()
    ensures ManyToManyPartner([Contact, MarketingList], SymmetricPair, MarketingList) == Some(Partner(1, 0))
  {
    assert !FirstEntityIs(MarketingList.name)(SymmetricPair[0]);
    assert FirstEntityIs(MarketingList.name)(SymmetricPair[1]);
    assert NameIs(SymmetricPair[1].secondEntityName)([Contact, MarketingList][0]);
  }

  /** Both tables are named as the first entity of a many-to-many relationship. */
  lemma BothTablesAreManyToMany()
    ensures Contact.name in ManyToManyNames(SymmetricPair) && MarketingList.name in ManyToManyNames(SymmetricPair)
  {
    assert SymmetricPair[0].relationshipType == ManyToManyType && SymmetricPair[1].relationshipType == ManyToManyType;
  }

  /** The build is Contact's pass followed by the marketing list's pass. */
  lemma BuildIsTwoPasses(env: Env)
    ensures var names := ManyToManyNames(SymmetricPair);
      Build(env, [Contact, MarketingList], SymmetricPair)
      == BuildTable(env, [Contact, MarketingList], SymmetricPair, names,
                    BuildTable(env, [Contact, MarketingList], SymmetricPair, names, InitialState, Contact), MarketingList)
  {
    var tables := [Contact, MarketingList];
    var names := ManyToManyNames(SymmetricPair);
    BuildTablesPrefix(env, tables, SymmetricPair, names, 0);
    BuildTablesPrefix(env, tables, SymmetricPair, names, 1);
    assert tables[..0] == [] && tables[..1] == [Contact] && tables[..2] == tables;
  }

  /** The two directions of the pair give edges with different names. */
  lemma EdgesDiffer(env: Env)
    ensures RelationshipEdge(env, MarketingList, Contact, ContactId) != RelationshipEdge(env, Contact, MarketingList, ListId)
  {
    assert |RelationshipEdge(env, MarketingList, Contact, ContactId).name| != |RelationshipEdge(env, Contact, MarketingList, ListId).name|;
  }

  /** Two paired passes in a row: the second keeps the first one's "*|*" edge, so both are there. */
  lemma TwoPairedPasses(env: Env, tables: seq<Table>, rels: seq<Relationship>, names: seq<string>,
                        st: BuildState, t1: Table, t2: Table)
    requires t1.columns == [] && t1.name in names
    requires ManyToManyPartner(tables, rels, t1).Some? && t1.primaryColumnEntity.Some?
    requires t2.columns == [] && t2.name in names
    requires ManyToManyPartner(tables, rels, t2).Some? && t2.primaryColumnEntity.Some?
    requires RelationshipEdge(env, tables[ManyToManyPartner(tables, rels, t1).value.tableIndex], t1, t1.primaryColumnEntity.value)
          != RelationshipEdge(env, tables[ManyToManyPartner(tables, rels, t2).value.tableIndex], t2, t2.primaryColumnEntity.value)
    ensures var g := BuildTable(env, tables, rels, names, BuildTable(env, tables, rels, names, st, t1), t2).graph;
      var e1 := RelationshipEdge(env, tables[ManyToManyPartner(tables, rels, t1).value.tableIndex], t1, t1.primaryColumnEntity.value);
      var e2 := RelationshipEdge(env, tables[ManyToManyPartner(tables, rels, t2).value.tableIndex], t2, t2.primaryColumnEntity.value);
      && e1 in g.edges && g.edges[e1].text == ManyToManyLabel
      && e2 in g.edges && g.edges[e2].text == ManyToManyLabel
  {
    var st1 := BuildTable(env, tables, rels, names, st, t1);
    PairingPassDrawsOneEdge(env, tables, rels, names, st, t1);
    PairingPassDrawsOneEdge(env, tables, rels, names, st1, t2);
  }

  /**
   * A many-to-many relationship recorded from both sides is drawn twice: each
   * table pairs with the other, from its own primary key column, and the two edges
   * have different names, so the graph holds two "*|*" edges for the one relationship.
   */
  lemma SymmetricManyToManyGivesTwoEdges(env: Env)
    ensures var g := Build(env, [Contact, MarketingList], SymmetricPair).graph;
      var fromContact := RelationshipEdge(env, MarketingList, Contact, ContactId);
      var fromList := RelationshipEdge(env, Contact, MarketingList, ListId);
      && fromContact in g.edges && g.edges[fromContact].text == ManyToManyLabel
      && fromList in g.edges && g.edges[fromList].text == ManyToManyLabel
      && fromContact != fromList
  {
    BothTablesAreManyToMany();
    ContactPairsWithList();
    ListPairsWithContact();
    BuildIsTwoPasses(env);
    EdgesDiffer(env);
    TwoPairedPasses(env, [Contact, MarketingList], SymmetricPair, ManyToManyNames(SymmetricPair),
                    InitialState, Contact, MarketingList);
  }
}
