/**
 * The three batch resolvers. Each looks up the named relationship, runs a
 * fixed number of bulk queries, and stores what it found on the instances
 * of the queryset, which it returns unchanged.
 */
module Utils {
  import opened Records
  import opened Lookup
  import opened Grouping
  import opened Database

  // ---------------------------------------------------------------------
  // What the schema guarantees about the models involved.
  // ---------------------------------------------------------------------

  /** Every model that has a foreign key to `model` is installed and its
      rows have that foreign key column. */
  predicate ReverseRelationsInstalled(model: ModelOptions, db: Connection)
  {
    forall rel :: rel in model.relatedObjects ==>
      rel.model in db.tables && Carries(db.tables[rel.model], rel.fkAttname)
  }

  /** The instances have the two columns of each generic foreign key their
      model declares. */
  predicate GenericColumnsPresent(queryset: QuerySet)
  {
    forall g, x :: g in queryset.model.virtualFields && x in queryset.items ==>
      g.ctAttname in x.row.columns && g.fkField in x.row.columns
  }

  /** Every model that a generic relation of `model` collects is installed
      and its rows have the content-type and object-id columns. */
  predicate GenericRelationsInstalled(model: ModelOptions, db: Connection)
  {
    forall rel :: rel in model.manyToMany ==>
      && rel.model in db.tables
      && Carries(db.tables[rel.model], rel.ctAttname)
      && Carries(db.tables[rel.model], rel.objectIdField)
  }

  lemma NonEmptyHasMember(s: set<int>)
    requires s != {}
    ensures exists x :: x in s
  {
    if forall x :: x !in s {
      assert false;
    }
  }

  // ---------------------------------------------------------------------
  // get_related_objects: reverse foreign keys.
  // ---------------------------------------------------------------------

  /** The last loop of `get_related_objects`: each group is stored on the
      instance that `parents` maps its key to. */
  method AttachToParents(items: seq<Instance>, parents: map<int, Instance>, groups: map<int, seq<Row>>, slot: string)
    requires forall id :: id in groups ==> id in parents && parents[id] in items && parents[id].row.pk == id
    modifies set x | x in items
    ensures forall x :: x in items ==>
      x.attrs == if x.row.pk in groups && parents[x.row.pk] == x
                 then old(x.attrs)[slot := RowList(groups[x.row.pk])]
                 else old(x.attrs)
  {
    var todo := groups.Keys;
    while todo != {}
      invariant todo <= groups.Keys
      invariant forall x :: x in items ==>
        x.attrs == if x.row.pk in groups && x.row.pk !in todo && parents[x.row.pk] == x
                   then old(x.attrs)[slot := RowList(groups[x.row.pk])]
                   else old(x.attrs)
      decreases todo
    {
      NonEmptyHasMember(todo);
      var id :| id in todo;
      var parent := parents[id];
      parent.attrs := parent.attrs[slot := RowList(groups[id])];
      todo := todo - {id};
    }
  }

  /** Stores on each parent, under `_<relation_name>`, the rows of the
      related model whose foreign key is that parent's primary key. Only
      parents that have such rows are written to; when two instances share
      a primary key, only the later one is. */
  method GetRelatedObjects(queryset: QuerySet, relationName: string, db: Connection) returns (r: Result<QuerySet>)
    requires ReverseRelationsInstalled(queryset.model, db)
    modifies db, queryset.Objects()
    ensures match FirstMatch(queryset.model.relatedObjects, AccessorName, relationName)
      case None =>
        && r == Failure(RelationNotFound(NotFoundMessage("Relation", relationName, queryset.model.name)))
        && db.queries == old(db.queries)
        && forall x :: x in queryset.items ==> x.attrs == old(x.attrs)
      case Some(k) =>
        var rel := queryset.model.relatedObjects[k];
        var groups := GroupBy(MatchingAny(db.tables[rel.model], rel.fkAttname, queryset.Pks()), rel.fkAttname);
        var parents := IndexBy(queryset.items, PkOf);
        && r == Success(queryset)
        && db.queries == old(db.queries) + 1
        && forall x :: x in queryset.items ==>
             x.attrs == if x.row.pk in groups && parents[x.row.pk] == x
                        then old(x.attrs)["_" + relationName := RowList(groups[x.row.pk])]
                        else old(x.attrs)
  {
    var found := LookupRelatedObject(queryset.model, relationName);
    if found.Failure? {
      return Failure(found.error);
    }
    var rel := found.value;
    var relatedField := rel.fkAttname;
    var objDict := BuildIndex(queryset.items, PkOf);
    var objects := db.Filter(rel.model, relatedField, queryset.Pks());
    var relationDict := BuildRelationDict(objects, relatedField);

    // Every key of relationDict is the primary key of some instance.
    BatchedGroups(db.tables[rel.model], relatedField, queryset.Pks());
    forall id | id in relationDict
      ensures id in objDict && objDict[id] in queryset.items && objDict[id].row.pk == id
    {
      var x :| x in queryset.items && x.row.pk == id;
      assert PkOf(x) == id;
    }

    AttachToParents(queryset.items, objDict, relationDict, "_" + relationName);
    return Success(queryset);
  }

  // ---------------------------------------------------------------------
  // get_generic_relations: generic foreign keys, forwards.
  // ---------------------------------------------------------------------

  /** The content type of `row` is known, its model is installed, and that
      model has a row with the primary key `row` points at. */
  predicate Resolves(db: Connection, row: Row, g: GenericForeignKey)
    requires g.ctAttname in row.columns && g.fkField in row.columns
  {
    var ct := row.columns[g.ctAttname];
    && ct in db.contentTypes
    && db.contentTypes[ct] in db.tables
    && row.columns[g.fkField] in IndexBy(db.tables[db.contentTypes[ct]], RowPk)
  }

  /** The object the generic foreign key `g` of `row` points at. */
  function Target(db: Connection, row: Row, g: GenericForeignKey): (target: Row)
    requires g.ctAttname in row.columns && g.fkField in row.columns
    requires Resolves(db, row, g)
    ensures target in db.tables[db.contentTypes[row.columns[g.ctAttname]]]
    ensures target.pk == row.columns[g.fkField]
  {
    IndexBy(db.tables[db.contentTypes[row.columns[g.ctAttname]]], RowPk)[row.columns[g.fkField]]
  }

  /** The objects of content type `ct` can be fetched: the type is known
      and its model is installed. */
  predicate TypeFetchable(db: Connection, ct: int)
  {
    ct in db.contentTypes && db.contentTypes[ct] in db.tables
  }

  /** What fetching the objects of a content type that cannot be fetched
      raises: `content_types[ct]` on an unknown type raises `KeyError`, and
      `.objects` on the `None` that `model_class()` returns for a model that
      is not installed raises `AttributeError`. */
  function FetchError(db: Connection, ct: int): (e: Exception)
    ensures e.KeyError? <==> ct !in db.contentTypes
    ensures e.KeyError? ==> e.key == ct
    ensures !e.KeyError? ==> e == AttributeError("objects")
  {
    if ct in db.contentTypes then AttributeError("objects") else KeyError(ct)
  }

  /** The middle loop of `get_generic_relations`: one `in_bulk` query per
      content type, fetching exactly the ids pointed at with that type.
      `contentTypes` is what the content-type query returned. */
  method FetchPerContentType(db: Connection, generics: map<int, set<int>>, contentTypes: map<int, ModelName>)
    returns (r: Result<map<int, map<int, Row>>>)
    requires contentTypes == map ct | ct in generics.Keys && ct in db.contentTypes :: db.contentTypes[ct]
    modifies db
    ensures r.Success? <==> forall ct :: ct in generics ==> TypeFetchable(db, ct)
    ensures r.Success? ==>
      && r.value.Keys == generics.Keys
      && (forall ct :: ct in r.value ==> r.value[ct] == InBulkOf(db.tables[db.contentTypes[ct]], generics[ct]))
      && db.queries == old(db.queries) + |generics.Keys|
    ensures r.Failure? ==>
      && (exists ct :: ct in generics && !TypeFetchable(db, ct) && r.error == FetchError(db, ct))
      && db.queries <= old(db.queries) + |generics.Keys|
  {
    var relations: map<int, map<int, Row>> := map[];
    var todo := generics.Keys;
    while todo != {}
      invariant todo <= generics.Keys
      invariant relations.Keys == generics.Keys - todo
      invariant forall ct :: ct in relations ==>
        && ct in db.contentTypes
        && db.contentTypes[ct] in db.tables
        && relations[ct] == InBulkOf(db.tables[db.contentTypes[ct]], generics[ct])
      invariant db.queries + |todo| == old(db.queries) + |generics.Keys|
      decreases todo
    {
      NonEmptyHasMember(todo);
      var ct :| ct in todo;
      if ct !in contentTypes {
        return Failure(KeyError(ct));
      }
      var model := contentTypes[ct];
      if model !in db.tables {
        return Failure(AttributeError("objects"));
      }
      var bulk := db.InBulk(model, generics[ct]);
      relations := relations[ct := bulk];
      assert |todo - {ct}| == |todo| - 1;
      todo := todo - {ct};
    }
    return Success(relations);
  }

  /** The attributes of each instance of `items`. */
  function AttrsOf(items: seq<Instance>): (attrs: map<Instance, map<string, Cached>>)
    reads set x | x in items
    ensures attrs.Keys == set x | x in items
    ensures forall x :: x in items ==> attrs[x] == x.attrs
  {
    map x | x in items :: x.attrs
  }

  /** Compared with the attributes `before`, the first `done` instances
      have a target, their cache attribute now holds it, and no other
      instance has changed. */
  predicate AttachedUpTo(items: seq<Instance>, g: GenericForeignKey, db: Connection, done: nat,
                         before: map<Instance, map<string, Cached>>)
    requires forall x :: x in items ==> g.ctAttname in x.row.columns && g.fkField in x.row.columns
    reads set x | x in items
  {
    && done <= |items|
    && (forall x :: x in items[..done] ==> Resolves(db, x.row, g))
    && forall x :: x in items ==>
         && x in before
         && x.attrs == if x in items[..done]
                       then before[x][g.cacheAttr := Object(Target(db, x.row, g))]
                       else before[x]
  }

  /** The content type of every instance can be fetched. */
  predicate AllTypesFetchable(items: seq<Instance>, g: GenericForeignKey, db: Connection)
    requires forall x :: x in items ==> g.ctAttname in x.row.columns && g.fkField in x.row.columns
  {
    forall x :: x in items ==> TypeFetchable(db, x.row.columns[g.ctAttname])
  }

  /** `e` is what fetching the objects of some instance's content type
      raises, that type being one that cannot be fetched. */
  predicate FailedFetching(items: seq<Instance>, g: GenericForeignKey, db: Connection, e: Exception)
    requires forall x :: x in items ==> g.ctAttname in x.row.columns && g.fkField in x.row.columns
  {
    exists x :: x in items && !TypeFetchable(db, x.row.columns[g.ctAttname]) && e == FetchError(db, x.row.columns[g.ctAttname])
  }

  /** The last loop stopped at instance `done`, the first without a target:
      the instances before it are written and `e` is the `KeyError` of its
      object id. */
  predicate StoppedAt(items: seq<Instance>, g: GenericForeignKey, db: Connection, done: nat,
                      before: map<Instance, map<string, Cached>>, e: Exception)
    requires forall x :: x in items ==> g.ctAttname in x.row.columns && g.fkField in x.row.columns
    reads set x | x in items
  {
    && done < |items|
    && AttachedUpTo(items, g, db, done, before)
    && !Resolves(db, items[done].row, g)
    && e == KeyError(items[done].row.columns[g.fkField])
  }

  /** Every instance's content type is a key of `generics`, and its target
      id is in that key's set. */
  predicate Covers(items: seq<Instance>, g: GenericForeignKey, generics: map<int, set<int>>)
    requires forall x :: x in items ==> g.ctAttname in x.row.columns && g.fkField in x.row.columns
  {
    forall x :: x in items ==>
      x.row.columns[g.ctAttname] in generics && x.row.columns[g.fkField] in generics[x.row.columns[g.ctAttname]]
  }

  /** `relations` holds, for each content type of `generics`, what `in_bulk`
      returns for its ids from the table of that content type's model. */
  predicate Answers(db: Connection, generics: map<int, set<int>>, relations: map<int, map<int, Row>>)
  {
    && relations.Keys == generics.Keys
    && forall ct :: ct in relations ==>
         && ct in db.contentTypes
         && db.contentTypes[ct] in db.tables
         && relations[ct] == InBulkOf(db.tables[db.contentTypes[ct]], generics[ct])
  }

  /** Looking a row's target up in `relations` finds it exactly when the
      row resolves, and then finds its target. */
  lemma AnswerIsTarget(db: Connection, g: GenericForeignKey, row: Row,
                       generics: map<int, set<int>>, relations: map<int, map<int, Row>>)
    requires g.ctAttname in row.columns && g.fkField in row.columns
    requires row.columns[g.ctAttname] in generics
    requires row.columns[g.fkField] in generics[row.columns[g.ctAttname]]
    requires Answers(db, generics, relations)
    ensures var ct, fk := row.columns[g.ctAttname], row.columns[g.fkField];
      && ct in relations
      && (fk in relations[ct] <==> Resolves(db, row, g))
      && (fk in relations[ct] ==> relations[ct][fk] == Target(db, row, g))
  {
  }

  /** The last loop of `get_generic_relations`: `relations[ct_id][fk_id]`
      is stored on each instance in turn, until an instance's target is
      missing. Returns how many instances were done. */
  method AttachTargets(items: seq<Instance>, g: GenericForeignKey, db: Connection,
                       generics: map<int, set<int>>, relations: map<int, map<int, Row>>,
                       ghost before: map<Instance, map<string, Cached>>)
    returns (done: nat)
    requires forall x :: x in items ==> g.ctAttname in x.row.columns && g.fkField in x.row.columns
    requires Covers(items, g, generics) && Answers(db, generics, relations)
    requires forall x :: x in items ==> x in before && before[x] == x.attrs
    modifies set x | x in items
    ensures AttachedUpTo(items, g, db, done, before)
    ensures done < |items| ==> !Resolves(db, items[done].row, g)
    ensures done == |items| ==> forall x :: x in items ==>
      Resolves(db, x.row, g) && x.attrs == before[x][g.cacheAttr := Object(Target(db, x.row, g))]
  {
    done := 0;
    while done < |items|
      invariant done <= |items|
      invariant forall x :: x in items[..done] ==> Resolves(db, x.row, g)
      invariant forall x :: x in items ==>
        x.attrs == if x in items[..done]
                   then before[x][g.cacheAttr := Object(Target(db, x.row, g))]
                   else before[x]
    {
      var item := items[done];
      var ct, fk := item.row.columns[g.ctAttname], item.row.columns[g.fkField];
      AnswerIsTarget(db, g, item.row, generics, relations);
      if fk !in relations[ct] {
        return;
      }
      item.attrs := item.attrs[g.cacheAttr := Object(relations[ct][fk])];
      assert items[..done + 1] == items[..done] + [item];
      done := done + 1;
    }
    assert items[..done] == items;
  }

  /** Every instance's content type is a key of `generics` and its target
      id is in that key's set; every key comes from some instance. */
  lemma TargetsCoverItems(items: seq<Instance>, g: GenericForeignKey)
    requires forall x :: x in items ==> g.ctAttname in x.row.columns && g.fkField in x.row.columns
    ensures Carries(RowsOf(items), g.ctAttname) && Carries(RowsOf(items), g.fkField)
    ensures forall x :: x in items ==>
      var ct := x.row.columns[g.ctAttname];
      ct in GenericTargets(RowsOf(items), g.ctAttname, g.fkField) &&
      x.row.columns[g.fkField] in GenericTargets(RowsOf(items), g.ctAttname, g.fkField)[ct]
    ensures forall ct :: ct in GenericTargets(RowsOf(items), g.ctAttname, g.fkField) ==>
      exists x :: x in items && x.row.columns[g.ctAttname] == ct
  {
    var rows := RowsOf(items);
    forall row | row in rows ensures g.ctAttname in row.columns && g.fkField in row.columns {
      var i :| 0 <= i < |rows| && rows[i] == row;
      assert items[i] in items;
    }
    GenericTargetsSpec(rows, g.ctAttname, g.fkField);
    forall x | x in items
      ensures var ct := x.row.columns[g.ctAttname];
        ct in GenericTargets(rows, g.ctAttname, g.fkField) &&
        x.row.columns[g.fkField] in GenericTargets(rows, g.ctAttname, g.fkField)[ct]
    {
      var i :| 0 <= i < |items| && items[i] == x;
      var row, G := x.row, GenericTargets(rows, g.ctAttname, g.fkField);
      assert rows[i] == row && row in rows;
      var ct, fk := row.columns[g.ctAttname], row.columns[g.fkField];
      assert ct in G;
      assert row in rows && row.columns[g.ctAttname] == ct && row.columns[g.fkField] == fk;
      assert fk in G[ct];
    }
    forall ct | ct in GenericTargets(rows, g.ctAttname, g.fkField)
      ensures exists x :: x in items && x.row.columns[g.ctAttname] == ct
    {
      var row :| row in rows && row.columns[g.ctAttname] == ct;
      var i :| 0 <= i < |rows| && rows[i] == row;
      assert items[i] in items;
    }
  }

  /** The queries of `get_generic_relations`: the content types the
      instances point at, then the pointed-at rows of each. Fails, before
      any instance is written to, when some instance's content type is
      unknown or names a model that is not installed. */
  method FetchTargets(items: seq<Instance>, g: GenericForeignKey, db: Connection)
    returns (generics: map<int, set<int>>, r: Result<map<int, map<int, Row>>>)
    requires forall x :: x in items ==> g.ctAttname in x.row.columns && g.fkField in x.row.columns
    modifies db
    ensures generics == GenericTargets(RowsOf(items), g.ctAttname, g.fkField)
    ensures Covers(items, g, generics)
    ensures r.Success? ==>
      && Answers(db, generics, r.value)
      && db.queries == old(db.queries) + 1 + |generics.Keys|
    ensures r.Success? <==> AllTypesFetchable(items, g, db)
    ensures r.Failure? ==>
      && FailedFetching(items, g, db, r.error)
      && db.queries <= old(db.queries) + 1 + |generics.Keys|
  {
    TargetsCoverItems(items, g);
    var rows := RowsOf(items);
    generics := BuildGenerics(rows, g.ctAttname, g.fkField);
    var contentTypes := db.ContentTypesInBulk(generics.Keys);
    r := FetchPerContentType(db, generics, contentTypes);
    if r.Failure? {
      ghost var ct :| ct in generics && !TypeFetchable(db, ct) && r.error == FetchError(db, ct);
      ghost var x :| x in items && x.row.columns[g.ctAttname] == ct;
      assert !AllTypesFetchable(items, g, db);
    } else {
      forall x | x in items ensures TypeFetchable(db, x.row.columns[g.ctAttname]) {
      }
    }
  }

  /** `get_generic_relations` once the generic foreign key is found. */
  method ResolveGenericForeignKey(items: seq<Instance>, g: GenericForeignKey, db: Connection)
    returns (error: Option<Exception>)
    requires forall x :: x in items ==> g.ctAttname in x.row.columns && g.fkField in x.row.columns
    modifies db, set x | x in items
    ensures error.None? <==> forall x :: x in items ==> Resolves(db, x.row, g)
    ensures error.None? ==>
      && db.queries == old(db.queries) + 1 + |GenericTargets(RowsOf(items), g.ctAttname, g.fkField).Keys|
      && forall x :: x in items ==> x.attrs == old(x.attrs)[g.cacheAttr := Object(Target(db, x.row, g))]
    ensures error.Some? && !AllTypesFetchable(items, g, db) ==>
      && FailedFetching(items, g, db, error.value)
      && db.queries <= old(db.queries) + 1 + |GenericTargets(RowsOf(items), g.ctAttname, g.fkField).Keys|
      && forall x :: x in items ==> x.attrs == old(x.attrs)
    ensures error.Some? && AllTypesFetchable(items, g, db) ==>
      && db.queries == old(db.queries) + 1 + |GenericTargets(RowsOf(items), g.ctAttname, g.fkField).Keys|
      && exists done :: StoppedAt(items, g, db, done, old(AttrsOf(items)), error.value)
  {
    ghost var before := AttrsOf(items);
    var generics, fetched := FetchTargets(items, g, db);
    if fetched.Failure? {
      ghost var x :| x in items && !TypeFetchable(db, x.row.columns[g.ctAttname]) && fetched.error == FetchError(db, x.row.columns[g.ctAttname]);
      assert !Resolves(db, x.row, g);
      assert forall y :: y in items ==> y.attrs == old(y.attrs);
      return Some(fetched.error);
    }
    assert AllTypesFetchable(items, g, db);
    var done := AttachTargets(items, g, db, generics, fetched.value, before);
    if done < |items| {
      error := Some(KeyError(items[done].row.columns[g.fkField]));
      assert StoppedAt(items, g, db, done, before, error.value);
      return;
    }
    return None;
  }

  /** Stores in the cache attribute of the generic foreign key named
      `relatedName` of each instance the object it points at, with one
      query for the content types and one per distinct content type. It
      fails when an instance points at an unknown content type, a model
      that is not installed or a missing row; instances before the first
      missing row have already been written to by then. */
  method GetGenericRelations(queryset: QuerySet, db: Connection, relatedName: string := "content_object") returns (r: Result<QuerySet>)
    requires GenericColumnsPresent(queryset)
    modifies db, queryset.Objects()
    ensures match FirstMatch(queryset.model.virtualFields, ForeignKeyName, relatedName)
      case None =>
        && r == Failure(RelationNotFound(NotFoundMessage("GenericForeignKey", relatedName, queryset.model.name)))
        && db.queries == old(db.queries)
        && forall x :: x in queryset.items ==> x.attrs == old(x.attrs)
      case Some(k) =>
        var g := queryset.model.virtualFields[k];
        && (r.Success? <==> forall x :: x in queryset.items ==> Resolves(db, x.row, g))
        && (r.Success? ==>
              && r.value == queryset
              && db.queries == old(db.queries) + 1 + |GenericTargets(RowsOf(queryset.items), g.ctAttname, g.fkField).Keys|
              && forall x :: x in queryset.items ==>
                   x.attrs == old(x.attrs)[g.cacheAttr := Object(Target(db, x.row, g))])
        && (r.Failure? && !AllTypesFetchable(queryset.items, g, db) ==>
              && FailedFetching(queryset.items, g, db, r.error)
              && db.queries <= old(db.queries) + 1 + |GenericTargets(RowsOf(queryset.items), g.ctAttname, g.fkField).Keys|
              && forall x :: x in queryset.items ==> x.attrs == old(x.attrs))
        && (r.Failure? && AllTypesFetchable(queryset.items, g, db) ==>
              && db.queries == old(db.queries) + 1 + |GenericTargets(RowsOf(queryset.items), g.ctAttname, g.fkField).Keys|
              && exists done :: StoppedAt(queryset.items, g, db, done, old(AttrsOf(queryset.items)), r.error))
  {
    var found := LookupGenericForeignKey(queryset.model, relatedName);
    if found.Failure? {
      return Failure(found.error);
    }
    var error := ResolveGenericForeignKey(queryset.items, found.value, db);
    if error.Some? {
      return Failure(error.value);
    }
    return Success(queryset);
  }

  // ---------------------------------------------------------------------
  // get_generic_related_objects: generic relations, backwards.
  // ---------------------------------------------------------------------

  /** `relations.get(pk)`: the group of `pk`, or None when it has none. */
  function GroupOrNone(groups: map<int, seq<Row>>, pk: int): Cached
  {
    if pk in groups then RowList(groups[pk]) else NoneValue
  }

  /** The last loop of `get_generic_related_objects`: every instance gets
      its group, or None. */
  method AttachGroups(items: seq<Instance>, slot: string, groups: map<int, seq<Row>>)
    modifies set x | x in items
    ensures forall x :: x in items ==> x.attrs == old(x.attrs)[slot := GroupOrNone(groups, x.row.pk)]
  {
    var i := 0;
    while i < |items|
      invariant 0 <= i <= |items|
      invariant forall x :: x in items ==>
        x.attrs == if x in items[..i] then old(x.attrs)[slot := GroupOrNone(groups, x.row.pk)] else old(x.attrs)
    {
      var item := items[i];
      item.attrs := item.attrs[slot := GroupOrNone(groups, item.row.pk)];
      assert items[..i + 1] == items[..i] + [item];
      i := i + 1;
    }
    assert items[..i] == items;
  }

  /** What is stored for an instance with primary key `pk` is what the
      per-instance query `filter(ct_field=ct, id_field=pk)` returns, or None
      when that is empty; each of those rows has content type `ct` and
      object id `pk`. */
  lemma StoredIsPerInstanceQuery(rows: seq<Row>, ctColumn: string, ct: int, idColumn: string, pks: set<int>, pk: int)
    requires Carries(rows, ctColumn) && Carries(rows, idColumn)
    requires pk in pks
    ensures Carries(Matching(rows, ctColumn, ct), idColumn)
    ensures var ofType := Matching(rows, ctColumn, ct);
      var perInstance := Matching(ofType, idColumn, pk);
      && GroupOrNone(GroupBy(MatchingAny(ofType, idColumn, pks), idColumn), pk)
           == (if perInstance == [] then NoneValue else RowList(perInstance))
      && forall x :: x in perInstance ==> x in rows && x.columns[ctColumn] == ct && x.columns[idColumn] == pk
  {
    var ofType := Matching(rows, ctColumn, ct);
    assert Carries(ofType, idColumn);
    BatchedGroups(ofType, idColumn, pks);
  }

  /** Stores on each instance, under `_<relation_name>`, the rows of the
      related model whose content type is the instance's model and whose
      object id is the instance's primary key, or None when there are
      none, with two queries. */
  method GetGenericRelatedObjects(queryset: QuerySet, relationName: string, db: Connection) returns (r: Result<QuerySet>)
    requires GenericRelationsInstalled(queryset.model, db)
    requires db.Valid() && db.Registered(queryset.model.name)
    modifies db, queryset.Objects()
    ensures match FirstMatch(queryset.model.manyToMany, RelationName, relationName)
      case None =>
        && r == Failure(RelationNotFound(NotFoundMessage("GenericRelation", relationName, queryset.model.name)))
        && db.queries == old(db.queries)
        && forall x :: x in queryset.items ==> x.attrs == old(x.attrs)
      case Some(k) =>
        var rel := queryset.model.manyToMany[k];
        var ofModel := Matching(db.tables[rel.model], rel.ctAttname, db.ContentTypeOf(queryset.model.name));
        var groups := GroupBy(MatchingAny(ofModel, rel.objectIdField, queryset.Pks()), rel.objectIdField);
        && r == Success(queryset)
        && db.queries == old(db.queries) + 2
        && forall x :: x in queryset.items ==>
             x.attrs == old(x.attrs)["_" + relationName := GroupOrNone(groups, x.row.pk)]
  {
    var found := LookupGenericRelation(queryset.model, relationName);
    if found.Failure? {
      return Failure(found.error);
    }
    var rel := found.value;
    var contentType := db.GetForModel(queryset.model.name);
    var objIds := queryset.Pks();
    var relatedItems := db.FilterGeneric(rel.model, rel.ctAttname, contentType, rel.objectIdField, objIds);
    var relations := BuildRelationDict(relatedItems, rel.objectIdField);

    AttachGroups(queryset.items, "_" + relationName, relations);
    return Success(queryset);
  }
}
