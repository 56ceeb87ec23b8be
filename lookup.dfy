/**
 * The searches buildGraph makes to find the table at the other end of a
 * relationship: the two tiers for a lookup column and the partner of a
 * many-to-many table. All of them take the first match in list order.
 */
module Lookup {
  import opened Wrappers
  import opened Metadata

  /**
   * Where a lookup column leads: directly to the table whose lower-cased name is
   * the column's logical name (tier 1), through the first relationship whose
   * referencing attribute is the column (tier 2), or nowhere.
   */
  datatype Resolution =
    | Direct(tableIndex: nat)
    | ViaRelationship(relIndex: nat, tableIndex: nat)
    | Unresolved

  /** A many-to-many partner: the relationship used and the partner table's index. */
  datatype Partner = Partner(relIndex: nat, tableIndex: nat)

  /** Index of the first element satisfying `p` is unique. */
  lemma FirstIsUnique<T>(s: seq<T>, p: T -> bool, i: int, j: int)
    requires IsFirst(s, p, i) && IsFirst(s, p, j)
    ensures i == j
  {
  }

  /**
   * The table a lookup column points to (lines 83-98). Tier 2 is tried only when
   * tier 1 finds nothing, and uses only the first matching relationship, even if
   * its referenced table is missing and a later relationship would lead somewhere.
   */
  function ResolveLookup(env: Env, tables: seq<Table>, rels: seq<Relationship>, column: Column): (r: Resolution)
    ensures r.Direct? ==> IsFirst(tables, LowerNameIs(env, column.logicalName), r.tableIndex)
    ensures !r.Direct? <==> forall i :: 0 <= i < |tables| ==> env.lower(tables[i].name) != column.logicalName
    ensures r.ViaRelationship? ==>
      && IsFirst(rels, ReferencingAttributeIs(env, column.logicalName), r.relIndex)
      && IsFirst(tables, NameIs(rels[r.relIndex].referencedEntityName), r.tableIndex)
    ensures r.Unresolved? <==>
      && (forall i :: 0 <= i < |tables| ==> env.lower(tables[i].name) != column.logicalName)
      && (forall j :: IsFirst(rels, ReferencingAttributeIs(env, column.logicalName), j) ==>
            forall i :: 0 <= i < |tables| ==> tables[i].name != rels[j].referencedEntityName)
  {
    match Find(tables, LowerNameIs(env, column.logicalName))
    case Some(i) => Direct(i)
    case None =>
      match Find(rels, ReferencingAttributeIs(env, column.logicalName))
      case None => Unresolved
      case Some(j) =>
        match Find(tables, NameIs(rels[j].referencedEntityName))
        case None => Unresolved
        case Some(i) => ViaRelationship(j, i)
  }

  /**
   * The partner of a many-to-many table (lines 127-135): the second entity of the
   * first relationship, of any type, whose first entity is the table, and the
   * first table of that name; None when either search fails.
   */
  function ManyToManyPartner(tables: seq<Table>, rels: seq<Relationship>, t: Table): (r: Option<Partner>)
    ensures r.Some? ==>
      && IsFirst(rels, FirstEntityIs(t.name), r.value.relIndex)
      && IsFirst(tables, NameIs(rels[r.value.relIndex].secondEntityName), r.value.tableIndex)
    ensures r.None? <==>
      forall j :: IsFirst(rels, FirstEntityIs(t.name), j) ==>
        forall i :: 0 <= i < |tables| ==> tables[i].name != rels[j].secondEntityName
  {
    match Find(rels, FirstEntityIs(t.name))
    case None => None
    case Some(j) =>
      match Find(tables, NameIs(rels[j].secondEntityName))
      case None => None
      case Some(i) => Some(Partner(j, i))
  }

  /** When tier 1 finds a table, the relationships play no part in the result. */
  lemma Tier1IgnoresRelationships(env: Env, tables: seq<Table>, rels1: seq<Relationship>, rels2: seq<Relationship>, column: Column)
    requires exists i :: 0 <= i < |tables| && env.lower(tables[i].name) == column.logicalName
    ensures ResolveLookup(env, tables, rels1, column) == ResolveLookup(env, tables, rels2, column)
  {
    var r1 := ResolveLookup(env, tables, rels1, column);
    var r2 := ResolveLookup(env, tables, rels2, column);
    FirstIsUnique(tables, LowerNameIs(env, column.logicalName), r1.tableIndex, r2.tableIndex);
  }
}
