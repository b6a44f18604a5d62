/**
 * The schema node. Sub-schema links are generic: a node in the schema graph
 * links to other nodes by their index in the graph (Id), which makes cyclic
 * graphs expressible, and a compiled body links to compiled code.
 */
module Schemas {
  import opened Wrappers
  import opened JsonValues
  import opened SchemaTypes
  import opened Uris

  type Id = nat

  /** A dependency value: a list of member names, a schema, or a value of any other shape. */
  datatype DepValue<R> = Names(names: seq<string>) | SchemaDep(schema: R) | OtherValue

  /** The fields of a node that hold no sub-schema. */
  datatype Attributes = Attributes(
    valid: Option<bool>,
    constValue: Option<Json>,
    enumValues: seq<Json>,
    schemaType: Option<TypeSet>,
    schemaVersion: Option<Uri>,
    id: Option<Uri>,
    reference: Option<Uri>,
    maximum: Option<real>,
    exclusiveMaximum: bool,
    minimum: Option<real>,
    exclusiveMinimum: bool,
    multipleOf: Option<real>,
    maximumLength: Option<int>,
    minimumLength: Option<int>,
    pattern: Option<string>,
    contentEncoding: Option<string>,
    contentMediaType: Option<string>,
    maximumItems: Option<int>,
    minimumItems: Option<int>,
    uniqueItems: bool,
    itemsPositionValidation: bool,
    allowAdditionalItems: bool,
    maximumProperties: Option<int>,
    minimumProperties: Option<int>,
    required: seq<string>,
    allowAdditionalProperties: bool,
    title: Option<string>,
    description: Option<string>,
    format: Option<string>,
    defaultValue: Option<Json>,
    readOnly: Option<bool>,
    writeOnly: Option<bool>,
    extensionData: map<string, Json>)

  /**
   * The fields of a node that hold sub-schemas. Keyed tables are kept in
   * enumeration order with unique keys.
   */
  datatype Subschemas<R> = Subschemas(
    allOf: seq<R>,
    anyOf: seq<R>,
    oneOf: seq<R>,
    notSchema: Option<R>,
    contains: Option<R>,
    ifSchema: Option<R>,
    thenSchema: Option<R>,
    elseSchema: Option<R>,
    items: seq<R>,
    additionalItems: Option<R>,
    properties: seq<(string, R)>,
    patternProperties: seq<(string, R)>,
    additionalProperties: Option<R>,
    dependencies: seq<(string, DepValue<R>)>)

  datatype Schema<R> = Schema(attrs: Attributes, subs: Subschemas<R>)

  function Keys<V>(entries: seq<(string, V)>): (ks: seq<string>)
    ensures |ks| == |entries| && forall i :: 0 <= i < |entries| ==> ks[i] == entries[i].0
  {
    seq(|entries|, i requires 0 <= i < |entries| => entries[i].0)
  }

  predicate UniqueKeys<V>(entries: seq<(string, V)>)
  {
    forall i, j :: 0 <= i < j < |entries| ==> entries[i].0 != entries[j].0
  }

  /**
   * Storing a value under a key of an insertion-ordered table: an existing key
   * keeps its position and takes the new value, a new key goes at the end.
   */
  function Put<V>(entries: seq<(string, V)>, key: string, value: V): (r: seq<(string, V)>)
    requires UniqueKeys(entries)
    ensures UniqueKeys(r)
    ensures key in Keys(r)
    ensures forall i :: 0 <= i < |r| && r[i].0 == key ==> r[i].1 == value
    ensures forall i :: 0 <= i < |entries| && entries[i].0 != key ==> entries[i] in r
    ensures forall i :: 0 <= i < |r| && r[i].0 != key ==> r[i] in entries
    ensures key in Keys(entries) ==> |r| == |entries|
    ensures key !in Keys(entries) ==> r == entries + [(key, value)]
  {
    if key in Keys(entries) then
      var r := seq(|entries|, i requires 0 <= i < |entries| => if entries[i].0 == key then (key, value) else entries[i]);
      assert forall i :: 0 <= i < |entries| && entries[i].0 != key ==> r[i] == entries[i];
      var k :| 0 <= k < |entries| && Keys(entries)[k] == key;
      assert Keys(r)[k] == key;
      r
    else
      var r := entries + [(key, value)];
      assert Keys(r)[|entries|] == key;
      r
  }

  /** A constructed node: additional items and properties are allowed, everything else is empty or unset. */
  function NewSchema<R>(): (s: Schema<R>)
    ensures s.attrs.allowAdditionalItems && s.attrs.allowAdditionalProperties
    ensures !s.attrs.itemsPositionValidation && !s.attrs.uniqueItems
    ensures !s.attrs.exclusiveMaximum && !s.attrs.exclusiveMinimum
    ensures s.attrs.valid.None? && s.attrs.constValue.None? && s.attrs.schemaType.None?
    ensures s.attrs.maximum.None? && s.attrs.minimum.None? && s.attrs.multipleOf.None?
    ensures s.attrs.maximumItems.None? && s.attrs.minimumItems.None?
    ensures s.attrs.maximumLength.None? && s.attrs.minimumLength.None?
    ensures s.attrs.maximumProperties.None? && s.attrs.minimumProperties.None?
    ensures s.attrs.pattern.None? && s.attrs.schemaVersion.None? && s.attrs.reference.None? && s.attrs.id.None?
    ensures s.attrs.contentEncoding.None? && s.attrs.contentMediaType.None? && s.attrs.format.None?
    ensures s.attrs.title.None? && s.attrs.description.None? && s.attrs.defaultValue.None?
    ensures s.attrs.readOnly.None? && s.attrs.writeOnly.None?
    ensures s.attrs.enumValues == [] && s.attrs.required == [] && s.attrs.extensionData == map[]
    ensures s.subs.allOf == [] && s.subs.anyOf == [] && s.subs.oneOf == [] && s.subs.items == []
    ensures s.subs.properties == [] && s.subs.patternProperties == [] && s.subs.dependencies == []
    ensures s.subs.notSchema.None? && s.subs.contains.None? && s.subs.ifSchema.None?
    ensures s.subs.thenSchema.None? && s.subs.elseSchema.None?
    ensures s.subs.additionalItems.None? && s.subs.additionalProperties.None?
  {
    Schema(
      Attributes(
        valid := None, constValue := None, enumValues := [], schemaType := None,
        schemaVersion := None, id := None, reference := None,
        maximum := None, exclusiveMaximum := false, minimum := None, exclusiveMinimum := false,
        multipleOf := None, maximumLength := None, minimumLength := None, pattern := None,
        contentEncoding := None, contentMediaType := None,
        maximumItems := None, minimumItems := None, uniqueItems := false,
        itemsPositionValidation := false, allowAdditionalItems := true,
        maximumProperties := None, minimumProperties := None, required := [],
        allowAdditionalProperties := true,
        title := None, description := None, format := None, defaultValue := None,
        readOnly := None, writeOnly := None, extensionData := map[]),
      Subschemas(
        allOf := [], anyOf := [], oneOf := [], notSchema := None, contains := None,
        ifSchema := None, thenSchema := None, elseSchema := None,
        items := [], additionalItems := None,
        properties := [], patternProperties := [], additionalProperties := None,
        dependencies := []))
  }

  predicate OptBelow(o: Option<Id>, bound: nat)
  {
    o.Some? ==> o.value < bound
  }

  predicate AllBelow(ids: seq<Id>, bound: nat)
  {
    forall i :: 0 <= i < |ids| ==> ids[i] < bound
  }

  predicate EntriesBelow(entries: seq<(string, Id)>, bound: nat)
  {
    forall i :: 0 <= i < |entries| ==> entries[i].1 < bound
  }

  predicate DepsBelow(deps: seq<(string, DepValue<Id>)>, bound: nat)
  {
    forall i :: 0 <= i < |deps| ==> (deps[i].1.SchemaDep? ==> deps[i].1.schema < bound)
  }

  /** Every sub-schema link of the node names a node below the bound. */
  predicate LinksBelow(s: Subschemas<Id>, bound: nat)
  {
    AllBelow(s.allOf, bound) && AllBelow(s.anyOf, bound) && AllBelow(s.oneOf, bound) &&
    OptBelow(s.notSchema, bound) && OptBelow(s.contains, bound) &&
    OptBelow(s.ifSchema, bound) && OptBelow(s.thenSchema, bound) && OptBelow(s.elseSchema, bound) &&
    AllBelow(s.items, bound) && OptBelow(s.additionalItems, bound) &&
    EntriesBelow(s.properties, bound) && EntriesBelow(s.patternProperties, bound) &&
    OptBelow(s.additionalProperties, bound) && DepsBelow(s.dependencies, bound)
  }

  /** A schema graph: every link names a node of the graph and keyed tables have unique keys. */
  predicate WellFormed(graph: seq<Schema<Id>>)
  {
    forall n :: 0 <= n < |graph| ==>
      LinksBelow(graph[n].subs, |graph|) &&
      UniqueKeys(graph[n].subs.properties) && UniqueKeys(graph[n].subs.patternProperties) &&
      UniqueKeys(graph[n].subs.dependencies)
  }

  /**
   * A lazily created collection field: the first access creates the
   * collection, later accesses return the same one.
   */
  class LazyField<T> {
    var target: Option<T>

    constructor()
      ensures target.None?
    {
      target := None;
    }

    method GetOrCreate(make: () -> T) returns (r: T)
      modifies this
      ensures old(target).Some? ==> r == old(target).value && target == old(target)
      ensures old(target).None? ==> r == make() && target == Some(r)
    {
      if target.None? {
        target := Some(make());
      }
      r := target.value;
    }
  }
}
