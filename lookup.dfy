/**
 * Finding a relationship of a model by name. Each resolver scans the
 * relationships of one kind that the model declares, takes the first whose
 * name is the requested one, and raises `RelationNotFound` naming the
 * relationship and the model when there is none.
 */
module Lookup {
  import opened Records

  function AccessorName(r: RelatedObject): string { r.accessorName }
  function ForeignKeyName(g: GenericForeignKey): string { g.name }
  function RelationName(g: GenericRelation): string { g.name }

  /** Index of the first candidate named `wanted`, if any. */
  function FirstMatch<T>(candidates: seq<T>, nameOf: T -> string, wanted: string): (k: Option<nat>)
    ensures k.Some? ==> k.value < |candidates|
  {
    if candidates == [] then None
    else if nameOf(candidates[0]) == wanted then Some(0)
    else
      match FirstMatch(candidates[1..], nameOf, wanted)
      case None => None
      case Some(j) => Some(j + 1)
  }

  /** `FirstMatch` finds a candidate with the wanted name, no earlier one
      has it, and it finds nothing exactly when no candidate has it. */
  lemma {:induction false} FirstMatchIsFirst<T>(candidates: seq<T>, nameOf: T -> string, wanted: string)
    ensures FirstMatch(candidates, nameOf, wanted).Some? ==>
      var k := FirstMatch(candidates, nameOf, wanted).value;
      nameOf(candidates[k]) == wanted && forall j :: 0 <= j < k ==> nameOf(candidates[j]) != wanted
    ensures FirstMatch(candidates, nameOf, wanted).None? <==>
      forall j :: 0 <= j < |candidates| ==> nameOf(candidates[j]) != wanted
  {
    if candidates != [] && nameOf(candidates[0]) != wanted {
      var tail := candidates[1..];
      FirstMatchIsFirst(tail, nameOf, wanted);
      forall j | 1 <= j < |candidates|
        ensures nameOf(candidates[j]) == nameOf(tail[j - 1])
      {
      }
    }
  }

  /** The `for relation in ...: if name matches: rel = relation; break` scan. */
  method FindFirst<T>(candidates: seq<T>, nameOf: T -> string, wanted: string) returns (found: Option<nat>)
    ensures found == FirstMatch(candidates, nameOf, wanted)
  {
    FirstMatchIsFirst(candidates, nameOf, wanted);
    var i := 0;
    while i < |candidates|
      invariant 0 <= i <= |candidates|
      invariant forall j :: 0 <= j < i ==> nameOf(candidates[j]) != wanted
    {
      if nameOf(candidates[i]) == wanted {
        return Some(i);
      }
      i := i + 1;
    }
    return None;
  }

  /** The message of `RelationNotFound`: `<kind> '<name>' not found in model <model>`. */
  function NotFoundMessage(kind: string, name: string, model: ModelName): (msg: string)
    ensures |msg| == |kind| + |name| + |model| + 23
    ensures msg[..|kind|] == kind
    ensures msg[|kind| + 2 .. |kind| + 2 + |name|] == name
    ensures msg[|msg| - |model| ..] == model
  {
    kind + " '" + name + "' not found in model " + model
  }

  /** The reverse foreign key of `model` whose accessor name is `name`. */
  method LookupRelatedObject(model: ModelOptions, name: string) returns (r: Result<RelatedObject>)
    ensures match FirstMatch(model.relatedObjects, AccessorName, name)
      case Some(k) => r == Success(model.relatedObjects[k])
      case None => r == Failure(RelationNotFound(NotFoundMessage("Relation", name, model.name)))
  {
    var found := FindFirst(model.relatedObjects, AccessorName, name);
    if found.None? {
      return Failure(RelationNotFound(NotFoundMessage("Relation", name, model.name)));
    }
    return Success(model.relatedObjects[found.value]);
  }

  /** The generic foreign key of `model` named `name`. */
  method LookupGenericForeignKey(model: ModelOptions, name: string) returns (r: Result<GenericForeignKey>)
    ensures match FirstMatch(model.virtualFields, ForeignKeyName, name)
      case Some(k) => r == Success(model.virtualFields[k])
      case None => r == Failure(RelationNotFound(NotFoundMessage("GenericForeignKey", name, model.name)))
  {
    var found := FindFirst(model.virtualFields, ForeignKeyName, name);
    if found.None? {
      return Failure(RelationNotFound(NotFoundMessage("GenericForeignKey", name, model.name)));
    }
    return Success(model.virtualFields[found.value]);
  }

  /** The generic relation of `model` named `name`. */
  method LookupGenericRelation(model: ModelOptions, name: string) returns (r: Result<GenericRelation>)
    ensures match FirstMatch(model.manyToMany, RelationName, name)
      case Some(k) => r == Success(model.manyToMany[k])
      case None => r == Failure(RelationNotFound(NotFoundMessage("GenericRelation", name, model.name)))
  {
    var found := FindFirst(model.manyToMany, RelationName, name);
    if found.None? {
      return Failure(RelationNotFound(NotFoundMessage("GenericRelation", name, model.name)));
    }
    return Success(model.manyToMany[found.value]);
  }
}
