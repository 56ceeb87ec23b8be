/**
 * The Dataverse metadata the graph builder reads: tables, their columns and the
 * declared relationships, plus the two string helpers it calls but which are
 * not part of this model (name sanitisation and lower-casing).
 */
module Metadata {
  import opened Wrappers

  /** A column of a table (ColumnEntity). */
  datatype Column = Column(logicalName: string, displayName: string, isNonDefaultLookup: bool)

  /**
   * A table (TableEntity). `primaryColumn` is the primary key's name as a string;
   * `primaryColumnEntity` is the primary key column itself, which may be missing.
   */
  datatype Table = Table(
    name: string,
    localizedName: string,
    primaryColumn: string,
    primaryColumnEntity: Option<Column>,
    columns: seq<Column>)

  /** A declared relationship (EntityRelationship); the type is the raw string, e.g. "ManyToMany". */
  datatype Relationship = Relationship(
    relationshipType: string,
    firstEntityName: string,
    secondEntityName: string,
    referencingAttributeName: string,
    referencedEntityName: string)

  /**
   * The helpers the builder calls without this model knowing their definition:
   * `safe` is CharsetHelper.GetSafeName, `lower` is String.ToLower.
   */
  datatype Env = Env(safe: string -> string, lower: string -> string)

  const ManyToManyType := "ManyToMany"

  /** True when `i` is the index of the first element of `s` that satisfies `p`. */
  ghost predicate IsFirst<T>(s: seq<T>, p: T -> bool, i: int)
  {
    0 <= i < |s| && p(s[i]) && forall j :: 0 <= j < i ==> !p(s[j])
  }

  /**
   * List order search, as List.Find and Enumerable.FirstOrDefault do it: the index
   * of the first element satisfying `p`, or None when no element does.
   */
  function Find<T>(s: seq<T>, p: T -> bool): (r: Option<nat>)
    ensures r.Some? ==> IsFirst(s, p, r.value)
    ensures r.None? <==> forall j :: 0 <= j < |s| ==> !p(s[j])
  {
    if |s| == 0 then None
    else if p(s[0]) then Some(0)
    else match Find(s[1..], p)
      case None => None
      case Some(i) => Some(i + 1)
  }

  /** The first entity names of the many-to-many relationships, in list order (lines 51-54). */
  function ManyToManyNames(rels: seq<Relationship>): (names: seq<string>)
    ensures |names| <= |rels|
    ensures forall n :: n in names <==>
      exists i :: 0 <= i < |rels| && rels[i].relationshipType == ManyToManyType && rels[i].firstEntityName == n
  {
    if rels == [] then []
    else
      var rest := ManyToManyNames(rels[1..]);
      assert forall i :: 0 < i < |rels| ==> rels[i] == rels[1..][i - 1];
      if rels[0].relationshipType == ManyToManyType then [rels[0].firstEntityName] + rest else rest
  }

  /** TableEntity.containsNonDefaultLookupColumns: some column is a non-default lookup. */
  predicate HasNonDefaultLookup(t: Table)
  {
    exists c :: c in t.columns && c.isNonDefaultLookup
  }

  /** The filter of line 59: the tables that get a cluster of their own. */
  predicate NeedsCluster(t: Table, manyToManyNames: seq<string>)
  {
    HasNonDefaultLookup(t) || t.name in manyToManyNames
  }

  /** Cluster label "{localized name} ({name})" (lines 65, 107, 118, 152). */
  function ClusterLabel(t: Table): string
  {
    t.localizedName + " (" + t.name + ")"
  }

  /** Tier-1 lookup test (line 84): the table's lower-cased name equals the column's logical name. */
  function LowerNameIs(env: Env, logicalName: string): Table -> bool
  {
    (t: Table) => env.lower(t.name) == logicalName
  }

  /** Exact table-name test (lines 97, 134). */
  function NameIs(name: string): Table -> bool
  {
    (t: Table) => t.name == name
  }

  /** Tier-2 relationship test (line 92): the lower-cased referencing attribute equals the logical name. */
  function ReferencingAttributeIs(env: Env, logicalName: string): Relationship -> bool
  {
    (r: Relationship) => env.lower(r.referencingAttributeName) == logicalName
  }

  /** Many-to-many pairing test (line 129): the relationship's first entity is exactly the table name. */
  function FirstEntityIs(name: string): Relationship -> bool
  {
    (r: Relationship) => r.firstEntityName == name
  }
}
