/**
 * The data the resolvers work on: database rows, the model instances of a
 * queryset (whose attributes the resolvers set), the relationship
 * descriptors a model declares, and the exception a resolver can raise.
 */
module Records {

  type ModelName = string

  datatype Option<T> = None | Some(value: T)

  /** A database row: its primary key and its other columns, by attribute
      name (`category_id`, `content_type_id`, `object_id`, ...). */
  datatype Row = Row(pk: int, columns: map<string, int>)

  /** A value a resolver stores in an instance attribute. */
  datatype Cached =
    | RowList(rows: seq<Row>)   // a list of related instances
    | Object(row: Row)          // one related instance
    | NoneValue                 // Python's None

  /** A model instance held by a queryset. Its columns never change; the
      resolvers only add or overwrite entries of `attrs`, the attributes
      set on the instance at run time. */
  class Instance {
    const row: Row
    var attrs: map<string, Cached>

    constructor (row: Row)
      ensures this.row == row && attrs == map[]
    {
      this.row := row;
      attrs := map[];
    }
  }

  function PkOf(x: Instance): int { x.row.pk }

  function RowPk(r: Row): int { r.pk }

  /** A reverse foreign key, as `_meta.get_all_related_objects()` lists it:
      the accessor name (`article_set`), the model holding the foreign key
      and the attribute name of that foreign key column (`category_id`). */
  datatype RelatedObject = RelatedObject(accessorName: string, model: ModelName, fkAttname: string)

  /** A `GenericForeignKey` from `_meta.virtual_fields`: its name, the
      attribute names of its content-type column and of its object-id
      column, and the attribute that caches the resolved object. */
  datatype GenericForeignKey = GenericForeignKey(name: string, ctAttname: string, fkField: string, cacheAttr: string)

  /** A `GenericRelation` from `_meta.many_to_many`: its name, the model
      holding the matching generic foreign key, and that model's
      content-type and object-id columns. */
  datatype GenericRelation = GenericRelation(name: string, model: ModelName, ctAttname: string, objectIdField: string)

  /** What a model declares about itself (`Model._meta` and `__name__`). */
  datatype ModelOptions = ModelOptions(
    name: ModelName,
    relatedObjects: seq<RelatedObject>,
    virtualFields: seq<GenericForeignKey>,
    manyToMany: seq<GenericRelation>)

  /** An evaluated queryset: its model and its instances, in order. */
  datatype QuerySet = QuerySet(model: ModelOptions, items: seq<Instance>) {
    function Objects(): set<Instance> { set x | x in items }
    function Pks(): set<int> { set x | x in items :: x.row.pk }
  }

  datatype Exception =
    | RelationNotFound(message: string)
    | KeyError(key: int)          // a dictionary subscript on a missing key
    | AttributeError(name: string)

  datatype Result<T> = Success(value: T) | Failure(error: Exception)

  /** Every row has the column `column`: the rows belong to a model that
      declares it. */
  predicate Carries(rows: seq<Row>, column: string)
  {
    forall r :: r in rows ==> column in r.columns
  }

  /** The rows of a queryset's instances, in queryset order. */
  function RowsOf(items: seq<Instance>): (rows: seq<Row>)
    ensures |rows| == |items|
    ensures forall i :: 0 <= i < |items| ==> rows[i] == items[i].row
  {
    seq(|items|, i requires 0 <= i < |items| => items[i].row)
  }
}
