# django-efficient resolvers, modelled in Dafny

django-efficient fills the related-object caches of a queryset's
instances with a fixed number of queries. Without it, each instance costs
at least one query. Its core is `efficient/utils.py`, with three
resolvers:

- `get_related_objects(queryset, relation_name)` follows a reverse foreign
  key. It runs one `filter(fk__in=queryset)` query, groups the rows by
  foreign key, and stores each group on its parent as
  `_<relation_name>`.
- `get_generic_relations(queryset, related_name='content_object')` follows a
  `GenericForeignKey` forwards. It collects the target ids per content
  type and runs one query for the content types. It then runs one
  `in_bulk` query per content type and stores each instance's target in
  the key's cache attribute.
- `get_generic_related_objects(queryset, relation_name)` follows a
  `GenericRelation` backwards. It looks up the queryset model's content
  type and runs one filter query on that type and the instances' ids. It
  stores each instance's group, or None, as `_<relation_name>`.

Each resolver first scans the model's relationships of one kind for the
requested name. If there is none, it raises `RelationNotFound`.

The model is split into five modules:

- `Records`: rows, instances (`class Instance`, whose `attrs` the
  resolvers update in place), relationship descriptors, and the
  exception.
- `Lookup`: the for/break scans, as a loop proved against the spec
  function `FirstMatch`.
- `Grouping`: the dictionaries the resolvers build. Each one is a spec
  function defined on a growing prefix, built by a loop proved equal to
  it, with lemmas saying what the dictionary means.
- `Database`: the ORM calls over a fixed database (`class Connection`),
  with a ghost counter of executed queries.
- `Utils`: the three resolvers and their last loops. Each resolver ends in
  `Success(queryset)` or `Failure(exception)`. Its `ensures` gives the
  error path, the number of queries and every instance's new attributes.
  The one exception is a content type that cannot be fetched in
  `get_generic_relations`: there only an upper bound on the queries is
  stated (see "## Left out").

## Model

| member | source | states |
|---|---|---|
| Lookup.FirstMatch | efficient/utils.py:20-23 | the index of the first candidate with the wanted name, if any, always in range |
| Lookup.FirstMatchIsFirst | efficient/utils.py:19-24 | the candidate found has the wanted name and no earlier one has it (the `break` keeps the first); nothing is found exactly when no candidate has the name |
| Lookup.FindFirst | efficient/utils.py:20-23 | the for/break scan returns exactly `FirstMatch` |
| Lookup.NotFoundMessage | efficient/utils.py:25-26 | the message starts with the relationship kind, has the requested name quoted after it and ends with the model name; its length is theirs plus the fixed text |
| Lookup.LookupRelatedObject | efficient/utils.py:19-26 | returns the first reverse relation whose accessor name matches, else fails with `RelationNotFound("Relation '<name>' not found in model <model>")` |
| Lookup.LookupGenericForeignKey | efficient/utils.py:69-76 | returns the first virtual field with that name, else fails with `RelationNotFound("GenericForeignKey '<name>' …")` |
| Lookup.LookupGenericRelation | efficient/utils.py:122-129 | returns the first many-to-many field with that name, else fails with `RelationNotFound("GenericRelation '<name>' …")` |
| Grouping.Matching | efficient/utils.py:142-143 | the rows a `filter(column=key)` query returns: rows of the table that hold `key` |
| Grouping.MatchingAny | efficient/utils.py:35 | the rows a `filter(column__in=keys)` query returns: rows of the table whose column is one of `keys` |
| Grouping.MatchingAfterMatchingAny | efficient/utils.py:35 | selecting one requested key out of the batched `__in` result gives exactly what a query for that key alone gives |
| Grouping.GroupByIsMatching | efficient/utils.py:38-41 | `relation_dict` has a key exactly when some row holds it, and the key's list is the rows holding it, in query order |
| Grouping.GroupByPartition | efficient/utils.py:38-41 | every listed row holds its key, every row is listed under its own key, and each list holds every occurrence of its rows: the lists split the rows |
| Grouping.BatchedGroups | efficient/utils.py:35-41 | grouping the result of one `__in` query yields no unrequested key, and for each requested key exactly the per-parent query's rows, present iff non-empty (the tests' "same objects, fewer queries") |
| Grouping.BuildRelationDict | efficient/utils.py:38-41 | the setdefault/append loop builds exactly `GroupBy` of the rows |
| Grouping.IndexBy | efficient/utils.py:33 | `obj_dict` has exactly the primary keys of the queryset as keys, each mapped to an instance with that key |
| Grouping.IndexByLast | efficient/utils.py:33 | when instances share a primary key, the later one wins |
| Grouping.BuildIndex | efficient/utils.py:33 | the loop builds exactly `IndexBy` |
| Grouping.GenericTargetsSpec | efficient/utils.py:80-84 | `generics` has a content type exactly when some instance points at it, and its set holds exactly the ids instances of that type point at |
| Grouping.GenericTargetsCount | efficient/utils.py:65-66 | there are never more content types than instances, and at least one when the queryset is not empty |
| Grouping.BuildGenerics | efficient/utils.py:80-84 | the setdefault/add loop builds exactly `GenericTargets` |
| Database.InBulkOf | efficient/utils.py:94 | `in_bulk(ids)` holds an id exactly when the table has a row with that key, mapped to such a row |
| Database.Connection.Filter | efficient/utils.py:35 | one query, returning `MatchingAny` of the related table |
| Database.Connection.FilterGeneric | efficient/utils.py:142-143 | one query, returning the rows of the given content type whose object id is among the ids |
| Database.Connection.InBulk | efficient/utils.py:94 | one query, returning `InBulkOf` the model's table |
| Database.Connection.ContentTypesInBulk | efficient/utils.py:87 | one query, returning the known content types among the ids |
| Database.Connection.GetForModel | efficient/utils.py:137 | one query, returning the model's content type |
| Utils.AttachToParents | efficient/utils.py:44-45 | each group ends up on the instance `obj_dict` maps its key to; every other instance is unchanged |
| Utils.GetRelatedObjects | efficient/utils.py:6-47 | on an unknown name: `RelationNotFound`, no query, nothing written. Otherwise: one query, the queryset is returned, and each instance that is its key's entry in `obj_dict` and has related rows gets `_<name>` = those rows, in query order; every other instance is unchanged. `obj_dict[id]` never fails |
| Utils.Target | efficient/utils.py:99 | the object an instance points at is a row of its content type's table whose primary key is the instance's object id |
| Utils.TargetsCoverItems | efficient/utils.py:80-84 | every instance's content type and object id are in `generics`, and every content type there comes from an instance |
| Utils.FetchError | efficient/utils.py:93 | fetching a content type that cannot be fetched raises `KeyError(ct)` exactly when the type is unknown, and otherwise exactly `AttributeError("objects")`, the model not being installed |
| Utils.FetchPerContentType | efficient/utils.py:91-94 | succeeds iff every content type is known and its model is installed. It then holds `in_bulk` of the requested ids per type, with one query each. Otherwise it fails with the `FetchError` of a content type that cannot be fetched, after at most one query per content type |
| Utils.AttachTargets | efficient/utils.py:96-99 | instances are written in order, each getting its target, until the first whose target is missing (the `KeyError` point); all are written iff all resolve |
| Utils.FetchTargets | efficient/utils.py:78-94 | builds `generics` and writes no instance. It succeeds iff every instance's content type can be fetched, with 1 + one query per content type; otherwise it fails with the `FetchError` of some instance's content type that cannot be, after at most that many queries |
| Utils.ResolveGenericForeignKey | efficient/utils.py:78-101 | succeeds iff every instance resolves, with 1 + #content types queries and each cache holding the target. If some instance's content type cannot be fetched, it fails with that type's `FetchError`, after at most 1 + #content types queries, and no instance is written. Otherwise it stops at the first instance whose target is missing, after exactly 1 + #content types queries: every earlier instance holds its target, no later one is written, and the error is `KeyError` of that instance's object id |
| Utils.GetGenericRelations | efficient/utils.py:50-101 | the key name defaults to `"content_object"`. On an unknown name: `RelationNotFound` and nothing done. Otherwise the same as `ResolveGenericForeignKey` for the key found, with the same two failure cases, exceptions and query counts, returning the queryset on success |
| Utils.AttachGroups | efficient/utils.py:149-150 | every instance gets `_<name>` = its group, or None when it has none |
| Utils.StoredIsPerInstanceQuery | efficient/utils.py:139-150 | what is stored for an instance is the per-instance query `filter(ct=ct, object_id=pk)`, or None when that is empty, and every stored row has that content type and that object id |
| Utils.GetGenericRelatedObjects | efficient/utils.py:104-152 | on an unknown name: `RelationNotFound` and nothing done. Otherwise: two queries, the queryset is returned, and every instance gets `_<name>` = `relations.get(pk)` over the rows of its model's content type |

## Left out

- The Django ORM, the database and the ContentType cache are not modelled. A query is a function of a fixed table (`Connection.tables`, rows in the order a query returns them). The queries' SQL, laziness and caching are not modelled.
- Query counting is a ghost counter that counts each ORM call as one query. Django skipping a query for an empty `__in` list is not modelled, so an empty queryset still counts its queries.
- Database.Connection.GetForModel: requires the model to already have a content type. `get_for_model` creating a missing one is not modelled.
- Utils.GetGenericRelatedObjects: `obj.id` is taken to be the primary key, as it is for the models with an automatic `id` field.
- A foreign key's `field.name` (used in the filter) and `attname` (read from the rows) are one column here: the filter on the related object and the filter on its id select the same rows.
- `get_field(rel.ct_field).get_attname()` is folded into the descriptor's `ctAttname`. `model_class()` is the content type's model name, and a model that is not installed stands for `None`, whose `.objects` raises `AttributeError`.
- Undeclared columns are excluded by requires (`ReverseRelationsInstalled`, `GenericColumnsPresent`, `GenericRelationsInstalled`), so none of these failures is modelled:
  - a related model without the foreign-key column makes `filter(...)` raise `FieldError` (efficient/utils.py:35);
  - a model whose generic foreign key names an undeclared content-type field makes `_meta.get_field(rel.ct_field)` raise `FieldDoesNotExist` before any query (efficient/utils.py:79);
  - an instance without the object-id attribute makes `getattr(item, rel.fk_field)` raise `AttributeError` (efficient/utils.py:83);
  - a related model without the content-type or object-id column makes `filter(...)` raise `FieldError` (efficient/utils.py:142-143).
- Fetched objects are values (`Row`), so their identity and sharing are not modelled. In Django, instances pointing at the same content type and id get the same target object (efficient/utils.py:99), and instances sharing a primary key get the same list object (efficient/utils.py:150).
- Utils.FetchPerContentType: Python iterates `generics` in dictionary order; the model picks the content types in any order. So when several content types cannot be fetched, it states that the error is the `FetchError` of one of them, not which one. For the same reason it bounds the queries made before the failure by one per content type, and does not give their exact number; `FetchTargets`, `ResolveGenericForeignKey` and `GetGenericRelations` inherit that bound.
- The order in which `AttachToParents` visits groups is left open for the same reason. The final state does not depend on it.
- Column values are integers: a NULL (`None`) column cannot be represented. A NULL content type makes `get_generic_relations` raise `KeyError(None)` in the middle loop, and a NULL object id raises in the last loop; neither case is modelled.
- `_meta.many_to_many` is modelled as holding only `GenericRelation`s. An ordinary `ManyToManyField` named `relation_name` would be found by the scan, and then reading its generic-relation attributes raises `AttributeError`; the model does not represent such fields.
- Model names are unique. `ModelOptions.name` (a `ModelName`) is both the class `__name__` in the `RelationNotFound` message and the model's identity: the key of `Connection.tables`, the value of `contentTypes` and the argument of `GetForModel`. Django identifies a model by its app label and its name, so two apps can each have a model of the same name. The model cannot represent both. `Connection.Valid` then makes `GetGenericRelatedObjects` uncallable when two content types share a name, although `get_for_model` and `model_class()` tell them apart.
- `efficient/templatetags/efficiency.py` (a template filter that calls the resolvers), the tests and the test models are not part of this model.
- Utils.GetRelatedObjects: the documentation says every item gets a list under `_<relation_name>`. The code writes only parents that have related rows; parents without any are left without the attribute. The model follows the code.
