/**
 * The ORM calls the resolvers make, over a fixed database: the rows of each
 * model's table in the order a query returns them, and the ContentType
 * table. A ghost counter stands for the log of executed queries.
 */
module Database {
  import opened Records
  import opened Grouping

  /** What `Model.objects.in_bulk(ids)` returns: the rows among `ids`,
      keyed by primary key. */
  function InBulkOf(rows: seq<Row>, ids: set<int>): (found: map<int, Row>)
    ensures found.Keys <= ids
    ensures forall pk :: pk in ids ==> (pk in found <==> exists x :: x in rows && x.pk == pk)
    ensures forall pk :: pk in found ==> found[pk] in rows && found[pk].pk == pk
    ensures forall pk :: pk in ids ==> (pk in found <==> pk in IndexBy(rows, RowPk))
    ensures forall pk :: pk in found ==> found[pk] == IndexBy(rows, RowPk)[pk]
  {
    var index := IndexBy(rows, RowPk);
    map pk | pk in ids && pk in index :: index[pk]
  }

  class Connection {
    const tables: map<ModelName, seq<Row>>
    const contentTypes: map<int, ModelName>
    ghost var queries: nat

    constructor (tables: map<ModelName, seq<Row>>, contentTypes: map<int, ModelName>)
      ensures this.tables == tables && this.contentTypes == contentTypes && queries == 0
    {
      this.tables := tables;
      this.contentTypes := contentTypes;
      queries := 0;
    }

    /** A model has at most one content type. */
    ghost predicate Valid()
    {
      forall a, b :: a in contentTypes && b in contentTypes && contentTypes[a] == contentTypes[b] ==> a == b
    }

    /** `model` has a content type. */
    predicate Registered(model: ModelName)
    {
      exists ct :: ct in contentTypes && contentTypes[ct] == model
    }

    /** The id of the content type of `model`. */
    ghost function ContentTypeOf(model: ModelName): (ct: int)
      requires Registered(model)
      ensures ct in contentTypes && contentTypes[ct] == model
    {
      var ct :| ct in contentTypes && contentTypes[ct] == model; ct
    }

    /** `Model.objects.filter(column__in=keys)`. */
    method Filter(model: ModelName, column: string, keys: set<int>) returns (rows: seq<Row>)
      requires model in tables && Carries(tables[model], column)
      modifies this
      ensures rows == MatchingAny(tables[model], column, keys)
      ensures queries == old(queries) + 1
    {
      rows := MatchingAny(tables[model], column, keys);
      queries := queries + 1;
    }

    /** `Model.objects.filter(ct_column=ct, id_column__in=ids)`. */
    method FilterGeneric(model: ModelName, ctColumn: string, ct: int, idColumn: string, ids: set<int>)
      returns (rows: seq<Row>)
      requires model in tables && Carries(tables[model], ctColumn) && Carries(tables[model], idColumn)
      modifies this
      ensures rows == MatchingAny(Matching(tables[model], ctColumn, ct), idColumn, ids)
      ensures queries == old(queries) + 1
    {
      rows := MatchingAny(Matching(tables[model], ctColumn, ct), idColumn, ids);
      queries := queries + 1;
    }

    /** `Model.objects.in_bulk(ids)`. */
    method InBulk(model: ModelName, ids: set<int>) returns (found: map<int, Row>)
      requires model in tables
      modifies this
      ensures found == InBulkOf(tables[model], ids)
      ensures queries == old(queries) + 1
    {
      found := InBulkOf(tables[model], ids);
      queries := queries + 1;
    }

    /** `ContentType.objects.in_bulk(ids)`. */
    method ContentTypesInBulk(ids: set<int>) returns (found: map<int, ModelName>)
      modifies this
      ensures found == map ct | ct in ids && ct in contentTypes :: contentTypes[ct]
      ensures queries == old(queries) + 1
    {
      found := map ct | ct in ids && ct in contentTypes :: contentTypes[ct];
      queries := queries + 1;
    }

    /** `ContentType.objects.get_for_model(model)`. */
    method GetForModel(model: ModelName) returns (ct: int)
      requires Valid() && Registered(model)
      modifies this
      ensures ct == ContentTypeOf(model)
      ensures queries == old(queries) + 1
    {
      ct :| ct in contentTypes && contentTypes[ct] == model;
      queries := queries + 1;
    }
  }
}
