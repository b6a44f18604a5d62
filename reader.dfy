/**
 * The schema reader: it loads a JSON value into a new node of a schema graph,
 * setting the node's fields in place member by member and reading every
 * sub-schema into a node of its own.
 */
module Reader {
  import opened Wrappers
  import opened JsonValues
  import opened SchemaTypes
  import opened Uris
  import opened Schemas
  import opened ReaderKeywords

  // The documents the reader accepts.

  /** A schema is a boolean, or an object each member of which its handler accepts. */
  predicate SchemaShaped(v: Json)
    decreases v, 0
  {
    match v
    case Bool(_) => true
    case Obj(ms) => forall i :: 0 <= i < |ms| ==> MemberShaped(ms[i].0, ms[i].1)
    case _ => false
  }

  predicate ArrayOfSchemas(v: Json)
    decreases v, 1
  {
    v.Arr? && forall i :: 0 <= i < |v.items| ==> SchemaShaped(v.items[i])
  }

  /** An object whose member values are all schemas. */
  predicate TableShaped(v: Json)
    decreases v, 1
  {
    v.Obj? && forall i :: 0 <= i < |v.members| ==> SchemaShaped(v.members[i].1)
  }

  predicate AllStrings(xs: seq<Json>)
  {
    forall i :: 0 <= i < |xs| ==> xs[i].Str?
  }

  /** additionalItems and additionalProperties: a boolean or a schema object. */
  predicate AdditionalShaped(v: Json)
    decreases v, 1
  {
    v.Bool? || (v.Obj? && SchemaShaped(v))
  }

  /** items: a schema object or an array of schemas. */
  predicate ItemsShaped(v: Json)
    decreases v, 2
  {
    (v.Obj? && SchemaShaped(v)) || ArrayOfSchemas(v)
  }

  /** dependencies: an object whose member values are dependency values. */
  predicate DependenciesShaped(v: Json)
    decreases v, 1
  {
    v.Obj? && forall i :: 0 <= i < |v.members| ==> DependencyShaped(v.members[i].1)
  }

  /** A dependency value: a name, an array of names, or a schema object. */
  predicate DependencyShaped(v: Json)
    decreases v, 1
  {
    match v
    case Str(_) => true
    case Arr(xs) => AllStrings(xs)
    case Obj(_) => SchemaShaped(v)
    case _ => false
  }

  /** The value shapes each handler that reads sub-schemas or loops accepts. */
  predicate StructuredAccepts(k: SchemaKeyword, v: Json)
    decreases v, 3
  {
    match k
    case AdditionalItemsKw => AdditionalShaped(v)
    case AdditionalPropertiesKw => AdditionalShaped(v)
    case AllOfKw => ArrayOfSchemas(v)
    case AnyOfKw => ArrayOfSchemas(v)
    case OneOfKw => ArrayOfSchemas(v)
    case ContainsKw => SchemaShaped(v)
    case ElseKw => SchemaShaped(v)
    case IfKw => SchemaShaped(v)
    case NotKw => SchemaShaped(v)
    case ThenKw => SchemaShaped(v)
    case ItemsKw => ItemsShaped(v)
    case PropertiesKw => TableShaped(v)
    case PatternPropertiesKw => TableShaped(v)
    case DependenciesKw => DependenciesShaped(v)
    case EnumKw => v.Arr?
    case RequiredKw => v.Arr? && AllStrings(v.items)
    case TypeKw => TypeShaped(v)
    case _ => false
  }

  /** A member is accepted when the handler its name selects accepts its value. */
  predicate MemberShaped(name: string, v: Json)
    decreases v, 4
  {
    var k := KeywordOf(name);
    if IsStructured(k) then StructuredAccepts(k, v) else PlainAccepts(k, v)
  }

  // Values the handlers compute.

  function StringsOf(xs: seq<Json>): (ss: seq<string>)
    requires AllStrings(xs)
    ensures |ss| == |xs| && forall i :: 0 <= i < |xs| ==> ss[i] == xs[i].s
  {
    seq(|xs|, i requires 0 <= i < |xs| && AllStrings(xs) => xs[i].s)
  }

  /** The names of an array dependency; reading a string from a non-string entry is an invalid operation. */
  function DependencyNames(xs: seq<Json>): (r: Result<seq<string>, ReadError>)
    ensures r.Success? <==> AllStrings(xs)
    ensures r.Success? ==> r.value == StringsOf(xs)
    ensures r.Failure? ==> r.error == InvalidOperation
  {
    if |xs| == 0 then Success([])
    else if !xs[0].Str? then Failure(InvalidOperation)
    else
      var rest := DependencyNames(xs[1..]);
      if rest.Failure? then
        assert !AllStrings(xs) by {
          var j :| 0 <= j < |xs[1..]| && !xs[1..][j].Str?;
          assert xs[j + 1] == xs[1..][j];
        }
        Failure(InvalidOperation)
      else
        var names := [xs[0].s] + rest.value;
        assert AllStrings(xs) && names == StringsOf(xs) by {
          forall i | 0 < i < |xs| ensures xs[i].Str? && names[i] == xs[i].s {
            assert xs[i] == xs[1..][i - 1];
          }
        }
        Success(names)
  }

  /** How a dependency entry was read from the last member of its name. */
  predicate DepRead(d: DepValue<Id>, x: Json, lo: nat)
  {
    match x
    case Str(s) => d == Names([s])
    case Arr(xs) => AllStrings(xs) && d == Names(StringsOf(xs))
    case Obj(_) => d.SchemaDep? && d.schema >= lo
    case _ => false
  }

  function WithAdditional(s: Schema<Id>, k: SchemaKeyword, allow: bool, schema: Option<Id>): Schema<Id>
    requires k.AdditionalItemsKw? || k.AdditionalPropertiesKw?
  {
    if k.AdditionalItemsKw? then s.(attrs := s.attrs.(allowAdditionalItems := allow), subs := s.subs.(additionalItems := schema))
    else s.(attrs := s.attrs.(allowAdditionalProperties := allow), subs := s.subs.(additionalProperties := schema))
  }

  predicate IsListKeyword(k: SchemaKeyword)
  {
    k.AllOfKw? || k.AnyOfKw? || k.OneOfKw?
  }

  function WithList(s: Schema<Id>, k: SchemaKeyword, ids: seq<Id>): Schema<Id>
    requires IsListKeyword(k)
  {
    if k.AllOfKw? then s.(subs := s.subs.(allOf := ids))
    else if k.AnyOfKw? then s.(subs := s.subs.(anyOf := ids))
    else s.(subs := s.subs.(oneOf := ids))
  }

  predicate IsSingleKeyword(k: SchemaKeyword)
  {
    k.ContainsKw? || k.ElseKw? || k.IfKw? || k.NotKw? || k.ThenKw?
  }

  function WithSingle(s: Schema<Id>, k: SchemaKeyword, c: Id): Schema<Id>
    requires IsSingleKeyword(k)
  {
    if k.ContainsKw? then s.(subs := s.subs.(contains := Some(c)))
    else if k.ElseKw? then s.(subs := s.subs.(elseSchema := Some(c)))
    else if k.IfKw? then s.(subs := s.subs.(ifSchema := Some(c)))
    else if k.NotKw? then s.(subs := s.subs.(notSchema := Some(c)))
    else s.(subs := s.subs.(thenSchema := Some(c)))
  }

  function WithItems(s: Schema<Id>, positional: bool, ids: seq<Id>): Schema<Id>
  {
    s.(attrs := s.attrs.(itemsPositionValidation := positional), subs := s.subs.(items := ids))
  }

  function WithTable(s: Schema<Id>, k: SchemaKeyword, entries: seq<(string, Id)>): Schema<Id>
    requires k.PropertiesKw? || k.PatternPropertiesKw?
  {
    if k.PropertiesKw? then s.(subs := s.subs.(properties := entries))
    else s.(subs := s.subs.(patternProperties := entries))
  }

  // The graph's invariant and the relations between successive graphs.

  /** A node's links stay below the bound and its keyed tables have unique keys. */
  predicate NodeOk(s: Schema<Id>, bound: nat)
  {
    LinksBelow(s.subs, bound) &&
    UniqueKeys(s.subs.properties) && UniqueKeys(s.subs.patternProperties) && UniqueKeys(s.subs.dependencies)
  }

  /** Every node links only to nodes of the graph. */
  ghost predicate Closed(nodes: seq<Schema<Id>>)
  {
    forall n :: 0 <= n < |nodes| ==> NodeOk(nodes[n], |nodes|)
  }

  lemma NodeOkGrows(s: Schema<Id>, b1: nat, b2: nat)
    requires NodeOk(s, b1) && b1 <= b2
    ensures NodeOk(s, b2)
  {
  }

  /** A closed graph is a well-formed schema graph. */
  lemma ClosedIsWellFormed(nodes: seq<Schema<Id>>)
    requires Closed(nodes)
    ensures WellFormed(nodes)
  {
    forall n | 0 <= n < |nodes|
      ensures LinksBelow(nodes[n].subs, |nodes|)
    {
      assert NodeOk(nodes[n], |nodes|);
    }
  }

  /** The second graph keeps every node of the first and may add more. */
  ghost predicate Extends(a: seq<Schema<Id>>, b: seq<Schema<Id>>)
  {
    |a| <= |b| && forall k :: 0 <= k < |a| ==> b[k] == a[k]
  }

  /** The second graph keeps every node of the first except the one being loaded. */
  ghost predicate Keeps(a: seq<Schema<Id>>, b: seq<Schema<Id>>, id: Id)
  {
    |a| <= |b| && forall k :: 0 <= k < |a| && k != id ==> b[k] == a[k]
  }

  lemma KeepsTrans(a: seq<Schema<Id>>, b: seq<Schema<Id>>, c: seq<Schema<Id>>, id: Id)
    requires Keeps(a, b, id) && Keeps(b, c, id)
    ensures Keeps(a, c, id)
  {
  }

  lemma SingleOk(s: Schema<Id>, k: SchemaKeyword, c: Id, bound: nat)
    requires IsSingleKeyword(k) && NodeOk(s, bound) && c < bound
    ensures NodeOk(WithSingle(s, k, c), bound)
  {
  }

  /** The shape the additional keywords and the schema-list keywords accept. */
  lemma SchemaKeywordCases(k: SchemaKeyword, v: Json)
    ensures k.AdditionalItemsKw? || k.AdditionalPropertiesKw? ==> (StructuredAccepts(k, v) <==> AdditionalShaped(v))
    ensures IsListKeyword(k) ==> (StructuredAccepts(k, v) <==> ArrayOfSchemas(v))
  {
  }

  /** The shape the single-schema keywords and items accept. */
  lemma SingleKeywordCases(k: SchemaKeyword, v: Json)
    ensures IsSingleKeyword(k) ==> (StructuredAccepts(k, v) <==> SchemaShaped(v))
    ensures k.ItemsKw? ==> (StructuredAccepts(k, v) <==> ItemsShaped(v))
  {
  }

  /** The shape each group of keyword tables and looped keywords accepts. */
  lemma TableKeywordCases(k: SchemaKeyword, v: Json)
    ensures k.PropertiesKw? || k.PatternPropertiesKw? ==> (StructuredAccepts(k, v) <==> TableShaped(v))
    ensures k.DependenciesKw? ==> (StructuredAccepts(k, v) <==> DependenciesShaped(v))
    ensures k.EnumKw? ==> (StructuredAccepts(k, v) <==> v.Arr?)
    ensures k.RequiredKw? ==> (StructuredAccepts(k, v) <==> v.Arr? && AllStrings(v.items))
    ensures k.TypeKw? ==> (StructuredAccepts(k, v) <==> TypeShaped(v))
  {
  }

  lemma AdditionalOk(s: Schema<Id>, k: SchemaKeyword, allow: bool, c: Option<Id>, bound: nat)
    requires (k.AdditionalItemsKw? || k.AdditionalPropertiesKw?) && NodeOk(s, bound) && (c.Some? ==> c.value < bound)
    ensures NodeOk(WithAdditional(s, k, allow, c), bound)
  {
  }

  lemma ListOk(s: Schema<Id>, k: SchemaKeyword, ids: seq<Id>, lo: nat, bound: nat)
    requires IsListKeyword(k) && NodeOk(s, bound) && Ascending(ids, lo, bound)
    ensures NodeOk(WithList(s, k, ids), bound)
  {
  }

  lemma ItemsOk(s: Schema<Id>, positional: bool, ids: seq<Id>, lo: nat, bound: nat)
    requires NodeOk(s, bound) && Ascending(ids, lo, bound)
    ensures NodeOk(WithItems(s, positional, ids), bound)
  {
  }

  lemma TableOk(s: Schema<Id>, k: SchemaKeyword, entries: seq<(string, Id)>, lo: nat, bound: nat)
    requires (k.PropertiesKw? || k.PatternPropertiesKw?) && NodeOk(s, bound)
    requires UniqueKeys(entries) && forall e :: e in entries ==> lo <= e.1 < bound
    ensures NodeOk(WithTable(s, k, entries), bound)
  {
    assert EntriesBelow(entries, bound) by {
      forall j | 0 <= j < |entries| ensures entries[j].1 < bound {
        assert entries[j] in entries;
      }
    }
  }

  lemma DepsOk(s: Schema<Id>, deps: seq<(string, DepValue<Id>)>, bound: nat)
    requires NodeOk(s, bound) && UniqueKeys(deps)
    requires forall e :: e in deps ==> e.1.SchemaDep? ==> e.1.schema < bound
    ensures NodeOk(s.(subs := s.subs.(dependencies := deps)), bound)
  {
    assert DepsBelow(deps, bound) by {
      forall j | 0 <= j < |deps| ensures deps[j].1.SchemaDep? ==> deps[j].1.schema < bound {
        assert deps[j] in deps;
      }
    }
  }

  /** Fresh node ids, read one after another. */
  predicate Ascending(ids: seq<Id>, lo: nat, hi: nat)
  {
    (forall k :: 0 <= k < |ids| ==> lo <= ids[k] < hi) &&
    (forall j, k :: 0 <= j < k < |ids| ==> ids[j] < ids[k])
  }

  lemma AscendingSnoc(ids: seq<Id>, lo: nat, h1: nat, c: Id, h2: nat)
    requires Ascending(ids, lo, h1) && lo <= h1 <= c < h2
    ensures Ascending(ids + [c], lo, h2)
  {
  }

  /**
   * A table read from the members of an object: one entry per distinct name,
   * each holding a node read for it.
   */
  ghost predicate TableRead(entries: seq<(string, Id)>, ms: seq<(string, Json)>, lo: nat, hi: nat)
  {
    UniqueKeys(entries) &&
    (forall name :: name in Keys(entries) <==> HasMember(ms, name)) &&
    (forall e :: e in entries ==> lo <= e.1 < hi)
  }

  /**
   * A dependency table read from the members of an object: one entry per
   * distinct name, read from the last member of that name.
   */
  ghost predicate DepsRead(deps: seq<(string, DepValue<Id>)>, ms: seq<(string, Json)>, lo: nat, hi: nat)
  {
    UniqueKeys(deps) &&
    (forall name :: name in Keys(deps) <==> HasMember(ms, name)) &&
    (forall e :: e in deps ==> HasMember(ms, e.0) && DepRead(e.1, Lookup(ms, e.0).value, lo)) &&
    (forall e :: e in deps ==> e.1.SchemaDep? ==> e.1.schema < hi)
  }

  /** Storing under a key: the keys gain that key, and each entry is the new one or an old one. */
  lemma PutKeys<V>(entries: seq<(string, V)>, key: string, value: V)
    requires UniqueKeys(entries)
    ensures forall name :: name in Keys(Put(entries, key, value)) <==> name == key || name in Keys(entries)
    ensures forall e :: e in Put(entries, key, value) ==> (e.0 == key && e.1 == value) || (e.0 != key && e in entries)
  {
    var r := Put(entries, key, value);
    forall name
      ensures name in Keys(r) <==> name == key || name in Keys(entries)
    {
      if name in Keys(r) && name != key {
        var i :| 0 <= i < |r| && Keys(r)[i] == name;
        assert r[i] in entries;
        var j :| 0 <= j < |entries| && entries[j] == r[i];
        assert Keys(entries)[j] == name;
      }
      if name in Keys(entries) && name != key {
        var j :| 0 <= j < |entries| && Keys(entries)[j] == name;
        assert entries[j] in r;
        var i :| 0 <= i < |r| && r[i] == entries[j];
        assert Keys(r)[i] == name;
      }
    }
    forall e | e in r
      ensures (e.0 == key && e.1 == value) || (e.0 != key && e in entries)
    {
      var i :| 0 <= i < |r| && r[i] == e;
    }
  }

  /** Extending the members read so far by one. */
  lemma MembersSnoc(ms: seq<(string, Json)>, i: nat)
    requires i < |ms|
    ensures forall name :: HasMember(ms[..i + 1], name) <==> HasMember(ms[..i], name) || ms[i].0 == name
    ensures forall name :: Lookup(ms[..i + 1], name) == if ms[i].0 == name then Some(ms[i].1) else Lookup(ms[..i], name)
  {
    var next := ms[..i + 1];
    assert next[..i] == ms[..i];
    assert next[i] == ms[i];
    forall name
      ensures HasMember(next, name) <==> HasMember(ms[..i], name) || ms[i].0 == name
      ensures Lookup(next, name) == if ms[i].0 == name then Some(ms[i].1) else Lookup(ms[..i], name)
    {
      assert next[|next| - 1] == ms[i] && next[..|next| - 1] == ms[..i];
      if HasMember(next, name) && ms[i].0 != name {
        var j :| 0 <= j < |next| && next[j].0 == name;
        assert ms[..i][j].0 == name;
      }
      if HasMember(ms[..i], name) {
        var j :| 0 <= j < i && ms[..i][j].0 == name;
        assert next[j].0 == name;
      }
      if ms[i].0 == name {
        assert next[i].0 == name;
      }
    }
  }

  /** Reading one more member into a table. */
  lemma TableReadSnoc(table: seq<(string, Id)>, ms: seq<(string, Json)>, i: nat, c: Id, lo: nat, h1: nat, h2: nat)
    requires i < |ms| && TableRead(table, ms[..i], lo, h1) && lo <= h1 <= c < h2
    ensures TableRead(Put(table, ms[i].0, c), ms[..i + 1], lo, h2)
  {
    PutKeys(table, ms[i].0, c);
    MembersSnoc(ms, i);
  }

  /** Reading one more member into a dependency table. */
  lemma DepsReadSnoc(deps: seq<(string, DepValue<Id>)>, ms: seq<(string, Json)>, i: nat, d: DepValue<Id>, lo: nat, h1: nat, h2: nat)
    requires i < |ms| && DepsRead(deps, ms[..i], lo, h1) && lo <= h1 <= h2
    requires DepRead(d, ms[i].1, lo) && (d.SchemaDep? ==> d.schema < h2)
    ensures DepsRead(Put(deps, ms[i].0, d), ms[..i + 1], lo, h2)
  {
    PutKeys(deps, ms[i].0, d);
    MembersSnoc(ms, i);
  }

  // What a node read from a document holds.

  /** The keywords whose handlers link sub-schemas; each owns one link field of a node. */
  predicate IsLinkKeyword(k: SchemaKeyword)
  {
    k.AdditionalItemsKw? || k.AdditionalPropertiesKw? || IsListKeyword(k) || IsSingleKeyword(k) ||
    k.ItemsKw? || k.PropertiesKw? || k.PatternPropertiesKw? || k.DependenciesKw?
  }

  /** Two link tables agree on the field that keyword k owns. */
  predicate SameField(a: Subschemas<Id>, b: Subschemas<Id>, k: SchemaKeyword)
  {
    match k
    case AdditionalItemsKw => a.additionalItems == b.additionalItems
    case AdditionalPropertiesKw => a.additionalProperties == b.additionalProperties
    case AllOfKw => a.allOf == b.allOf
    case AnyOfKw => a.anyOf == b.anyOf
    case OneOfKw => a.oneOf == b.oneOf
    case ContainsKw => a.contains == b.contains
    case ElseKw => a.elseSchema == b.elseSchema
    case IfKw => a.ifSchema == b.ifSchema
    case NotKw => a.notSchema == b.notSchema
    case ThenKw => a.thenSchema == b.thenSchema
    case ItemsKw => a.items == b.items
    case PropertiesKw => a.properties == b.properties
    case PatternPropertiesKw => a.patternProperties == b.patternProperties
    case DependenciesKw => a.dependencies == b.dependencies
    case _ => true
  }

  /** The link table a with the field that keyword k owns taken from b. */
  function WithField(a: Subschemas<Id>, k: SchemaKeyword, b: Subschemas<Id>): Subschemas<Id>
  {
    match k
    case AdditionalItemsKw => a.(additionalItems := b.additionalItems)
    case AdditionalPropertiesKw => a.(additionalProperties := b.additionalProperties)
    case AllOfKw => a.(allOf := b.allOf)
    case AnyOfKw => a.(anyOf := b.anyOf)
    case OneOfKw => a.(oneOf := b.oneOf)
    case ContainsKw => a.(contains := b.contains)
    case ElseKw => a.(elseSchema := b.elseSchema)
    case IfKw => a.(ifSchema := b.ifSchema)
    case NotKw => a.(notSchema := b.notSchema)
    case ThenKw => a.(thenSchema := b.thenSchema)
    case ItemsKw => a.(items := b.items)
    case PropertiesKw => a.(properties := b.properties)
    case PatternPropertiesKw => a.(patternProperties := b.patternProperties)
    case DependenciesKw => a.(dependencies := b.dependencies)
    case _ => a
  }

  /**
   * The attributes a structured handler sets: the additional flags (true for
   * a schema object), the items mode, and the enum, required and type values.
   */
  function StructuredAttrs(a: Attributes, k: SchemaKeyword, x: Json): Attributes
  {
    match k
    case AdditionalItemsKw => a.(allowAdditionalItems := if x.Bool? then x.b else true)
    case AdditionalPropertiesKw => a.(allowAdditionalProperties := if x.Bool? then x.b else true)
    case ItemsKw => a.(itemsPositionValidation := x.Arr?)
    case EnumKw => if x.Arr? then a.(enumValues := x.items) else a
    case RequiredKw => if x.Arr? && AllStrings(x.items) then a.(required := StringsOf(x.items)) else a
    case TypeKw => if TypeFromElement(x).Success? then a.(schemaType := TypeFromElement(x).value) else a
    case _ => a
  }

  /** Node s after a structured handler of k read x: the attributes it sets, and the field k owns taken from subs. */
  function AfterStructured(s: Schema<Id>, k: SchemaKeyword, x: Json, subs: Subschemas<Id>): Schema<Id>
  {
    s.(attrs := StructuredAttrs(s.attrs, k, x), subs := WithField(s.subs, k, subs))
  }

  /** The attributes after the handler of one member. */
  function MemberAttrs(a: Attributes, name: string, x: Json): Attributes
  {
    var k := KeywordOf(name);
    if IsStructured(k) then StructuredAttrs(a, k, x)
    else if LoadPlain(a, k, name, x).Success? then LoadPlain(a, k, name, x).value
    else a
  }

  /** The attributes after the handlers of the members, in document order. */
  function AttrsAfter(a: Attributes, ms: seq<(string, Json)>): Attributes
  {
    if |ms| == 0 then a
    else MemberAttrs(AttrsAfter(a, ms[..|ms| - 1]), ms[|ms| - 1].0, ms[|ms| - 1].1)
  }

  /** The position of the last member whose name selects keyword k, if any. */
  function LastIndex(ms: seq<(string, Json)>, k: SchemaKeyword): (r: Option<nat>)
    ensures r.Some? ==> r.value < |ms|
  {
    if |ms| == 0 then None
    else if KeywordOf(ms[|ms| - 1].0) == k then Some(|ms| - 1)
    else LastIndex(ms[..|ms| - 1], k)
  }

  /** When LastIndex finds no member, no member selects k. */
  lemma {:induction false} LastIndexNone(ms: seq<(string, Json)>, k: SchemaKeyword)
    requires LastIndex(ms, k).None?
    ensures forall j :: 0 <= j < |ms| ==> KeywordOf(ms[j].0) != k
    decreases |ms|
  {
    if |ms| > 0 {
      var p := ms[..|ms| - 1];
      assert KeywordOf(ms[|ms| - 1].0) != k && LastIndex(p, k).None?;
      LastIndexNone(p, k);
      forall j | 0 <= j < |p|
        ensures KeywordOf(ms[j].0) != k
      {
        assert ms[j] == p[j];
      }
    }
  }

  /** When LastIndex finds a member, that member selects k and no later one does. */
  lemma {:induction false} LastIndexSome(ms: seq<(string, Json)>, k: SchemaKeyword)
    requires LastIndex(ms, k).Some?
    ensures KeywordOf(ms[LastIndex(ms, k).value].0) == k
    ensures forall j :: LastIndex(ms, k).value < j < |ms| ==> KeywordOf(ms[j].0) != k
    decreases |ms|
  {
    if KeywordOf(ms[|ms| - 1].0) != k {
      var p := ms[..|ms| - 1];
      LastIndexSome(p, k);
      var i := LastIndex(p, k).value;
      assert ms[i] == p[i];
      forall j | i < j < |ms|
        ensures KeywordOf(ms[j].0) != k
      {
        if j < |p| {
          assert ms[j] == p[j];
        }
      }
    }
  }

  /** The second graph keeps the nodes of the first from lo on, and may add more. */
  ghost predicate Frozen(a: seq<Schema<Id>>, b: seq<Schema<Id>>, lo: nat)
  {
    |a| <= |b| && forall k :: lo <= k < |a| ==> b[k] == a[k]
  }

  /** Node s with valid set to b, as a boolean schema loads it. */
  function WithValid(s: Schema<Id>, b: bool): Schema<Id>
  {
    s.(attrs := s.attrs.(valid := Some(b)))
  }

  /** Node c of graph g holds the schema read from x: a new node loaded with x. */
  ghost predicate ReadAs(g: seq<Schema<Id>>, c: Id, x: Json)
    decreases x, 4
  {
    LoadedAs(g, c, x, NewSchema())
  }

  /**
   * Node c of graph g holds node init loaded with v: a boolean sets only valid;
   * an object sets the attributes its members' handlers compute in document
   * order, and each link field is the one read from the last member that
   * selects its keyword, or init's when no member does.
   */
  ghost predicate LoadedAs(g: seq<Schema<Id>>, c: Id, v: Json, init: Schema<Id>)
    decreases v, 3
  {
    match v
    case Bool(b) => c < |g| && g[c] == WithValid(init, b)
    case Obj(ms) => MembersLoaded(g, c, init, ms)
    case _ => false
  }

  /** Node c holds init after the handlers of the members ms. */
  ghost predicate MembersLoaded(g: seq<Schema<Id>>, c: Id, init: Schema<Id>, ms: seq<(string, Json)>)
    decreases Json.Obj(ms), 2
  {
    c < |g| && g[c].attrs == AttrsAfter(init.attrs, ms) &&
    forall k :: IsLinkKeyword(k) ==> FieldLoaded(g, c, k, init.subs, ms)
  }

  /** The link field of keyword k after the members ms. */
  ghost predicate FieldLoaded(g: seq<Schema<Id>>, c: Id, k: SchemaKeyword, init: Subschemas<Id>, ms: seq<(string, Json)>)
    requires c < |g|
    decreases Json.Obj(ms), 1
  {
    var j := LastIndex(ms, k);
    if j.None? then SameField(g[c].subs, init, k) else FieldRead(g, c, k, ms[j.value].1)
  }

  /** The field of node c that keyword k owns is the one its handler reads from x. */
  ghost predicate FieldRead(g: seq<Schema<Id>>, c: Id, k: SchemaKeyword, x: Json)
    requires c < |g|
    decreases x, 9
  {
    LinkRead(g, c, k, g[c].subs, x)
  }

  /** What the handler of link keyword k leaves, read from x, in the field of subs it owns. */
  ghost predicate LinkRead(g: seq<Schema<Id>>, c: Id, k: SchemaKeyword, subs: Subschemas<Id>, x: Json)
    decreases x, 8
  {
    match k
    case AdditionalItemsKw => AdditionalRead(g, c, subs.additionalItems, x)
    case AdditionalPropertiesKw => AdditionalRead(g, c, subs.additionalProperties, x)
    case AllOfKw => ListRead(g, c, subs.allOf, x)
    case AnyOfKw => ListRead(g, c, subs.anyOf, x)
    case OneOfKw => ListRead(g, c, subs.oneOf, x)
    case ContainsKw => ChildRead(g, c, subs.contains, x)
    case ElseKw => ChildRead(g, c, subs.elseSchema, x)
    case IfKw => ChildRead(g, c, subs.ifSchema, x)
    case NotKw => ChildRead(g, c, subs.notSchema, x)
    case ThenKw => ChildRead(g, c, subs.thenSchema, x)
    case ItemsKw => ItemsRead(g, c, subs.items, x)
    case PropertiesKw => TableLinked(g, c, subs.properties, x)
    case PatternPropertiesKw => TableLinked(g, c, subs.patternProperties, x)
    case DependenciesKw => DepsLinked(g, c, subs.dependencies, x)
    case _ => true
  }

  /** A field set to a new node, above c, read from x. */
  ghost predicate ChildRead(g: seq<Schema<Id>>, c: Id, o: Option<Id>, x: Json)
    decreases x, 5
  {
    o.Some? && c < o.value && ReadAs(g, o.value, x)
  }

  /** additionalItems or additionalProperties: no schema for a boolean, a new node for an object. */
  ghost predicate AdditionalRead(g: seq<Schema<Id>>, c: Id, o: Option<Id>, x: Json)
    decreases x, 6
  {
    (x.Bool? && o.None?) || (x.Obj? && ChildRead(g, c, o, x))
  }

  /** The first n elements of the array x are read into the nodes ids. */
  ghost predicate ElementsRead(g: seq<Schema<Id>>, ids: seq<Id>, x: Json, n: nat)
    decreases x, 5
  {
    x.Arr? && n <= |x.items| && n <= |ids| && forall j :: 0 <= j < n ==> ReadAs(g, ids[j], x.items[j])
  }

  /** A list of new nodes above c, one read from each element of the array x, in order. */
  ghost predicate ListRead(g: seq<Schema<Id>>, c: Id, ids: seq<Id>, x: Json)
    decreases x, 6
  {
    x.Arr? && |ids| == |x.items| && Ascending(ids, c + 1, |g|) && ElementsRead(g, ids, x, |x.items|)
  }

  /** items: one new node read from an object, or a list read from an array. */
  ghost predicate ItemsRead(g: seq<Schema<Id>>, c: Id, ids: seq<Id>, x: Json)
    decreases x, 7
  {
    (x.Obj? && |ids| == 1 && c < ids[0] && ReadAs(g, ids[0], x)) || ListRead(g, c, ids, x)
  }

  /** Every entry holds a node read from the last member of its name in the object x. */
  ghost predicate EntriesRead(g: seq<Schema<Id>>, es: seq<(string, Id)>, x: Json)
    decreases x, 5
  {
    x.Obj? && forall e :: e in es ==> HasMember(x.members, e.0) && ReadAs(g, e.1, Lookup(x.members, e.0).value)
  }

  /** A keyed table of new nodes above c, read from the object x. */
  ghost predicate TableLinked(g: seq<Schema<Id>>, c: Id, es: seq<(string, Id)>, x: Json)
    decreases x, 6
  {
    x.Obj? && TableRead(es, x.members, c + 1, |g|) && EntriesRead(g, es, x)
  }

  /** Every schema dependency holds a node read from the last member of its name in the object x. */
  ghost predicate DepsChildrenRead(g: seq<Schema<Id>>, ds: seq<(string, DepValue<Id>)>, x: Json)
    decreases x, 5
  {
    x.Obj? &&
    forall e :: e in ds && e.1.SchemaDep? ==> HasMember(x.members, e.0) && ReadAs(g, e.1.schema, Lookup(x.members, e.0).value)
  }

  /** A dependency table read from the object x, its schemas new nodes above c. */
  ghost predicate DepsLinked(g: seq<Schema<Id>>, c: Id, ds: seq<(string, DepValue<Id>)>, x: Json)
    decreases x, 6
  {
    x.Obj? && DepsRead(ds, x.members, c + 1, |g|) && DepsChildrenRead(g, ds, x)
  }

  /**
   * Node id of g is node s after the handler of structured keyword k read x:
   * its attributes are as that handler sets them, the field k owns is read
   * from x and every other link field is s's.
   */
  ghost predicate StructuredRead(g: seq<Schema<Id>>, id: Id, s: Schema<Id>, k: SchemaKeyword, x: Json)
  {
    id < |g| && g[id] == AfterStructured(s, k, x, g[id].subs) && FieldRead(g, id, k, x)
  }

  /** Node id of g is node s after the handler of the member (name, x). */
  ghost predicate MemberRead(g: seq<Schema<Id>>, id: Id, s: Schema<Id>, name: string, x: Json)
  {
    var k := KeywordOf(name);
    if IsStructured(k) then StructuredRead(g, id, s, k, x)
    else id < |g| && LoadPlain(s.attrs, k, name, x).Success? && g[id] == s.(attrs := LoadPlain(s.attrs, k, name, x).value)
  }

  // Reading later nodes leaves what earlier nodes hold.

  /** A node read from x keeps its content while the graph grows and only nodes created before it change. */
  lemma {:induction false} ReadAsStable(g: seq<Schema<Id>>, g': seq<Schema<Id>>, c: Id, x: Json)
    requires ReadAs(g, c, x) && Frozen(g, g', c)
    ensures ReadAs(g', c, x)
    decreases x, 3
  {
    LoadedAsStable(g, g', c, x, NewSchema());
  }

  lemma {:induction false} LoadedAsStable(g: seq<Schema<Id>>, g': seq<Schema<Id>>, c: Id, v: Json, init: Schema<Id>)
    requires LoadedAs(g, c, v, init) && Frozen(g, g', c)
    ensures LoadedAs(g', c, v, init)
    decreases v, 2
  {
    match v {
      case Bool(_) =>
      case Obj(ms) =>
        forall k | IsLinkKeyword(k)
          ensures FieldLoaded(g', c, k, init.subs, ms)
        {
          assert FieldLoaded(g, c, k, init.subs, ms);
          var j := LastIndex(ms, k);
          if j.Some? {
            FieldReadStable(g, g', c, k, ms[j.value].1);
          }
        }
    }
  }

  lemma {:induction false} FieldReadStable(g: seq<Schema<Id>>, g': seq<Schema<Id>>, c: Id, k: SchemaKeyword, x: Json)
    requires c < |g| && FieldRead(g, c, k, x) && Frozen(g, g', c)
    ensures FieldRead(g', c, k, x)
    decreases x, 6
  {
    LinkReadStable(g, g', c, k, g[c].subs, x);
  }

  lemma {:induction false} LinkReadStable(g: seq<Schema<Id>>, g': seq<Schema<Id>>, c: Id, k: SchemaKeyword, subs: Subschemas<Id>, x: Json)
    requires LinkRead(g, c, k, subs, x) && Frozen(g, g', c + 1)
    ensures LinkRead(g', c, k, subs, x)
    decreases x, 5
  {
    match k {
      case AdditionalItemsKw => AdditionalReadStable(g, g', c, subs.additionalItems, x);
      case AdditionalPropertiesKw => AdditionalReadStable(g, g', c, subs.additionalProperties, x);
      case AllOfKw => ElementsReadStable(g, g', subs.allOf, x, |x.items|, c + 1);
      case AnyOfKw => ElementsReadStable(g, g', subs.anyOf, x, |x.items|, c + 1);
      case OneOfKw => ElementsReadStable(g, g', subs.oneOf, x, |x.items|, c + 1);
      case ContainsKw => ReadAsStable(g, g', subs.contains.value, x);
      case ElseKw => ReadAsStable(g, g', subs.elseSchema.value, x);
      case IfKw => ReadAsStable(g, g', subs.ifSchema.value, x);
      case NotKw => ReadAsStable(g, g', subs.notSchema.value, x);
      case ThenKw => ReadAsStable(g, g', subs.thenSchema.value, x);
      case ItemsKw =>
        if ListRead(g, c, subs.items, x) {
          ElementsReadStable(g, g', subs.items, x, |x.items|, c + 1);
        } else {
          ReadAsStable(g, g', subs.items[0], x);
        }
      case PropertiesKw => EntriesReadStable(g, g', subs.properties, x, c + 1);
      case PatternPropertiesKw => EntriesReadStable(g, g', subs.patternProperties, x, c + 1);
      case DependenciesKw => DepsChildrenReadStable(g, g', subs.dependencies, x, c + 1);
      case _ =>
    }
  }

  lemma {:induction false} AdditionalReadStable(g: seq<Schema<Id>>, g': seq<Schema<Id>>, c: Id, o: Option<Id>, x: Json)
    requires AdditionalRead(g, c, o, x) && Frozen(g, g', c + 1)
    ensures AdditionalRead(g', c, o, x)
    decreases x, 4
  {
    if x.Obj? {
      assert ChildRead(g, c, o, x);
      ReadAsStable(g, g', o.value, x);
    }
  }

  lemma {:induction false} ElementsReadStable(g: seq<Schema<Id>>, g': seq<Schema<Id>>, ids: seq<Id>, x: Json, n: nat, lo: nat)
    requires ElementsRead(g, ids, x, n) && Frozen(g, g', lo)
    requires forall j :: 0 <= j < n ==> lo <= ids[j]
    ensures ElementsRead(g', ids, x, n)
    decreases x, 4
  {
    forall j | 0 <= j < n
      ensures ReadAs(g', ids[j], x.items[j])
    {
      ReadAsStable(g, g', ids[j], x.items[j]);
    }
  }

  lemma {:induction false} EntriesReadStable(g: seq<Schema<Id>>, g': seq<Schema<Id>>, es: seq<(string, Id)>, x: Json, lo: nat)
    requires EntriesRead(g, es, x) && Frozen(g, g', lo)
    requires forall e :: e in es ==> lo <= e.1
    ensures EntriesRead(g', es, x)
    decreases x, 4
  {
    forall e | e in es
      ensures ReadAs(g', e.1, Lookup(x.members, e.0).value)
    {
      ReadAsStable(g, g', e.1, Lookup(x.members, e.0).value);
    }
  }

  lemma {:induction false} DepsChildrenReadStable(g: seq<Schema<Id>>, g': seq<Schema<Id>>, ds: seq<(string, DepValue<Id>)>, x: Json, lo: nat)
    requires DepsChildrenRead(g, ds, x) && Frozen(g, g', lo)
    requires forall e :: e in ds && e.1.SchemaDep? ==> lo <= e.1.schema
    ensures DepsChildrenRead(g', ds, x)
    decreases x, 4
  {
    forall e | e in ds && e.1.SchemaDep?
      ensures ReadAs(g', e.1.schema, Lookup(x.members, e.0).value)
    {
      ReadAsStable(g, g', e.1.schema, Lookup(x.members, e.0).value);
    }
  }

  // A node's content, one member at a time.

  lemma MembersLoadedEmpty(g: seq<Schema<Id>>, c: Id)
    requires c < |g|
    ensures MembersLoaded(g, c, g[c], [])
  {
    forall k | IsLinkKeyword(k)
      ensures FieldLoaded(g, c, k, g[c].subs, [])
    {
      assert SameField(g[c].subs, g[c].subs, k);
    }
  }

  /** A field read from x stays read when the node keeps that field and the nodes above it are kept. */
  lemma FieldReadTransfer(g: seq<Schema<Id>>, g': seq<Schema<Id>>, c: Id, k: SchemaKeyword, x: Json)
    requires c < |g| && Frozen(g, g', c + 1) && FieldRead(g, c, k, x) && SameField(g'[c].subs, g[c].subs, k)
    ensures FieldRead(g', c, k, x)
  {
    LinkReadStable(g, g', c, k, g[c].subs, x);
    assert LinkRead(g', c, k, g'[c].subs, x);
  }

  /** Loading one more member into node id, given what the member's handler did. */
  lemma {:induction false} MembersLoadedSnoc(g: seq<Schema<Id>>, g': seq<Schema<Id>>, id: Id, init: Schema<Id>, ms: seq<(string, Json)>, i: nat)
    requires i < |ms| && MembersLoaded(g, id, init, ms[..i])
    requires Frozen(g, g', id + 1) && MemberRead(g', id, g[id], ms[i].0, ms[i].1)
    ensures MembersLoaded(g', id, init, ms[..i + 1])
  {
    var p, q := ms[..i], ms[..i + 1];
    assert q[..|q| - 1] == p && q[|q| - 1] == ms[i];
    assert g'[id].attrs == MemberAttrs(g[id].attrs, ms[i].0, ms[i].1);
    var k0 := KeywordOf(ms[i].0);
    forall k | IsLinkKeyword(k)
      ensures FieldLoaded(g', id, k, init.subs, q)
    {
      if k == k0 {
        assert LastIndex(q, k) == Some(i);
      } else {
        assert LastIndex(q, k) == LastIndex(p, k);
        OtherFields(g[id].subs, k0, g'[id].subs, k);
        assert FieldLoaded(g, id, k, init.subs, p);
        var j := LastIndex(p, k);
        if j.Some? {
          assert q[j.value] == p[j.value];
          FieldReadTransfer(g, g', id, k, p[j.value].1);
        } else {
          SameFieldTrans(g'[id].subs, g[id].subs, init.subs, k);
        }
      }
    }
  }

  /** Taking the field of k0 from elsewhere keeps the field of every other keyword. */
  lemma OtherFields(a: Subschemas<Id>, k0: SchemaKeyword, b: Subschemas<Id>, k: SchemaKeyword)
    requires k != k0
    ensures SameField(WithField(a, k0, b), a, k)
  {
  }

  lemma SameFieldTrans(a: Subschemas<Id>, b: Subschemas<Id>, c: Subschemas<Id>, k: SchemaKeyword)
    requires SameField(a, b, k) && SameField(b, c, k)
    ensures SameField(a, c, k)
  {
  }

  // What each structured handler leaves in the node.

  lemma AdditionalStructured(g: seq<Schema<Id>>, id: Id, s: Schema<Id>, k: SchemaKeyword, o: Option<Id>, x: Json)
    requires (k.AdditionalItemsKw? || k.AdditionalPropertiesKw?) && id < |g|
    requires g[id] == WithAdditional(s, k, if x.Bool? then x.b else true, o) && AdditionalRead(g, id, o, x)
    ensures StructuredRead(g, id, s, k, x)
  {
  }

  lemma ListStructured(g: seq<Schema<Id>>, id: Id, s: Schema<Id>, k: SchemaKeyword, ids: seq<Id>, x: Json)
    requires IsListKeyword(k) && id < |g| && g[id] == WithList(s, k, ids) && ListRead(g, id, ids, x)
    ensures StructuredRead(g, id, s, k, x)
  {
  }

  lemma SingleStructured(g: seq<Schema<Id>>, id: Id, s: Schema<Id>, k: SchemaKeyword, c: Id, x: Json)
    requires IsSingleKeyword(k) && id < |g| && g[id] == WithSingle(s, k, c) && ChildRead(g, id, Some(c), x)
    ensures StructuredRead(g, id, s, k, x)
  {
    assert StructuredAttrs(s.attrs, k, x) == s.attrs;
    assert WithField(s.subs, k, g[id].subs) == g[id].subs;
    assert LinkRead(g, id, k, g[id].subs, x);
  }

  lemma ItemsStructured(g: seq<Schema<Id>>, id: Id, s: Schema<Id>, ids: seq<Id>, x: Json)
    requires id < |g| && g[id] == WithItems(s, x.Arr?, ids) && ItemsRead(g, id, ids, x)
    ensures StructuredRead(g, id, s, ItemsKw, x)
  {
  }

  lemma TableStructured(g: seq<Schema<Id>>, id: Id, s: Schema<Id>, k: SchemaKeyword, es: seq<(string, Id)>, x: Json)
    requires (k.PropertiesKw? || k.PatternPropertiesKw?) && id < |g| && g[id] == WithTable(s, k, es) && TableLinked(g, id, es, x)
    ensures StructuredRead(g, id, s, k, x)
  {
  }

  lemma DepsStructured(g: seq<Schema<Id>>, id: Id, s: Schema<Id>, ds: seq<(string, DepValue<Id>)>, x: Json)
    requires id < |g| && g[id] == s.(subs := s.subs.(dependencies := ds)) && DepsLinked(g, id, ds, x)
    ensures StructuredRead(g, id, s, DependenciesKw, x)
  {
  }

  lemma AttrStructured(g: seq<Schema<Id>>, id: Id, s: Schema<Id>, k: SchemaKeyword, x: Json)
    requires IsStructured(k) && !IsLinkKeyword(k) && id < |g| && g[id] == s.(attrs := StructuredAttrs(s.attrs, k, x))
    ensures StructuredRead(g, id, s, k, x)
  {
  }

  /** Reading one more member into a table of nodes. */
  lemma EntriesReadSnoc(g: seq<Schema<Id>>, table: seq<(string, Id)>, ms: seq<(string, Json)>, i: nat, c: Id)
    requires i < |ms| && UniqueKeys(table) && EntriesRead(g, table, Json.Obj(ms[..i])) && ReadAs(g, c, ms[i].1)
    ensures EntriesRead(g, Put(table, ms[i].0, c), Json.Obj(ms[..i + 1]))
  {
    PutKeys(table, ms[i].0, c);
    MembersSnoc(ms, i);
  }

  /** Reading one more member into a dependency table. */
  lemma DepsChildrenReadSnoc(g: seq<Schema<Id>>, deps: seq<(string, DepValue<Id>)>, ms: seq<(string, Json)>, i: nat, d: DepValue<Id>)
    requires i < |ms| && UniqueKeys(deps) && DepsChildrenRead(g, deps, Json.Obj(ms[..i]))
    requires d.SchemaDep? ==> ReadAs(g, d.schema, ms[i].1)
    ensures DepsChildrenRead(g, Put(deps, ms[i].0, d), Json.Obj(ms[..i + 1]))
  {
    PutKeys(deps, ms[i].0, d);
    MembersSnoc(ms, i);
  }

  // Extending the accepted prefix of a loop by one.

  lemma MembersShapedSnoc(ms: seq<(string, Json)>, i: nat)
    requires i < |ms| && (forall j :: 0 <= j < i ==> MemberShaped(ms[j].0, ms[j].1)) && MemberShaped(ms[i].0, ms[i].1)
    ensures forall j :: 0 <= j < i + 1 ==> MemberShaped(ms[j].0, ms[j].1)
  {
  }

  lemma SchemasShapedSnoc(xs: seq<Json>, i: nat)
    requires i < |xs| && (forall j :: 0 <= j < i ==> SchemaShaped(xs[j])) && SchemaShaped(xs[i])
    ensures forall j :: 0 <= j < i + 1 ==> SchemaShaped(xs[j])
  {
  }

  lemma ValuesShapedSnoc(ms: seq<(string, Json)>, i: nat)
    requires i < |ms| && (forall j :: 0 <= j < i ==> SchemaShaped(ms[j].1)) && SchemaShaped(ms[i].1)
    ensures forall j :: 0 <= j < i + 1 ==> SchemaShaped(ms[j].1)
  {
  }

  lemma DependenciesShapedSnoc(ms: seq<(string, Json)>, i: nat)
    requires i < |ms| && (forall j :: 0 <= j < i ==> DependencyShaped(ms[j].1)) && DependencyShaped(ms[i].1)
    ensures forall j :: 0 <= j < i + 1 ==> DependencyShaped(ms[j].1)
  {
  }

  /** The schema graph the reader fills: nodes are appended and loaded in place. */
  class SchemaGraph {
    var nodes: seq<Schema<Id>>

    constructor()
      ensures nodes == [] && Closed(nodes)
    {
      nodes := [];
    }

    /** Appending a fresh node. */
    method NewNode() returns (id: Id)
      requires Closed(nodes)
      modifies this
      ensures nodes == old(nodes) + [NewSchema()] && id == |old(nodes)| && Closed(nodes)
    {
      id := |nodes|;
      forall n | 0 <= n < |nodes|
        ensures NodeOk(nodes[n], |nodes| + 1)
      {
        NodeOkGrows(nodes[n], |nodes|, |nodes| + 1);
      }
      nodes := nodes + [NewSchema()];
    }

    /** Replacing one node. */
    method Store(id: Id, s: Schema<Id>)
      requires id < |nodes| && Closed(nodes) && NodeOk(s, |nodes|)
      modifies this
      ensures nodes == old(nodes)[id := s] && Closed(nodes)
    {
      nodes := nodes[id := s];
    }

    /**
     * Reading a schema into a new node: it succeeds exactly on the documents
     * the reader accepts, appends nodes without changing existing ones and
     * keeps the graph closed; a boolean sets only the node's valid field.
     */
    method Read(v: Json) returns (r: Result<Id, ReadError>)
      requires Closed(nodes)
      modifies this
      ensures Closed(nodes) && WellFormed(nodes) && Extends(old(nodes), nodes)
      ensures r.Success? <==> SchemaShaped(v)
      ensures r.Success? ==> r.value == |old(nodes)| < |nodes|
      ensures r.Success? && v.Bool? ==>
        nodes == old(nodes) + [NewSchema().(attrs := NewSchema<Id>().attrs.(valid := Some(v.b)))]
      ensures r.Success? ==> ReadAs(nodes, r.value, v)
      decreases v, 1
    {
      var id := NewNode();
      var st := Load(id, v);
      ClosedIsWellFormed(nodes);
      if st.Raised? {
        return Failure(st.error);
      }
      return Success(id);
    }

    /**
     * Loading a value into a node: a boolean sets only valid, an object
     * dispatches its members in document order, anything else is malformed.
     */
    method Load(id: Id, v: Json) returns (r: Status<ReadError>)
      requires id < |nodes| && Closed(nodes)
      modifies this
      ensures Closed(nodes) && Keeps(old(nodes), nodes, id)
      ensures r.Raised? <==> !SchemaShaped(v)
      ensures r.Done? && v.Bool? ==>
        nodes == old(nodes)[id := old(nodes)[id].(attrs := old(nodes)[id].attrs.(valid := Some(v.b)))]
      ensures r.Done? ==> LoadedAs(nodes, id, v, old(nodes)[id])
      decreases v, 0
    {
      match v {
        case Bool(b) =>
          var s := nodes[id];
          Store(id, s.(attrs := s.attrs.(valid := Some(b))));
          return Done;
        case Obj(ms) =>
          MembersLoadedEmpty(nodes, id);
          var i := 0;
          while i < |ms|
            invariant 0 <= i <= |ms|
            invariant id < |nodes| && Closed(nodes) && Keeps(old(nodes), nodes, id)
            invariant forall j :: 0 <= j < i ==> MemberShaped(ms[j].0, ms[j].1)
            invariant MembersLoaded(nodes, id, old(nodes)[id], ms[..i])
          {
            assert ms[i] in ms;
            ghost var before := nodes;
            var st := LoadProperty(id, ms[i].0, ms[i].1);
            if st.Raised? {
              return st;
            }
            MembersShapedSnoc(ms, i);
            MembersLoadedSnoc(before, nodes, id, old(nodes)[id], ms, i);
            KeepsTrans(old(nodes), before, nodes, id);
            i := i + 1;
          }
          assert ms[..|ms|] == ms;
          return Done;
        case _ =>
          return Raised(Malformed);
      }
    }

    /** Reading every element of an array as a schema, in order. */
    method ReadAll(v: Json) returns (r: Result<seq<Id>, ReadError>)
      requires v.Arr? && Closed(nodes)
      modifies this
      ensures Closed(nodes) && Extends(old(nodes), nodes)
      ensures r.Success? <==> ArrayOfSchemas(v)
      ensures r.Success? ==> |r.value| == |v.items| && Ascending(r.value, |old(nodes)|, |nodes|)
      ensures r.Success? ==> ElementsRead(nodes, r.value, v, |v.items|)
      decreases v, 1
    {
      var ids: seq<Id> := [];
      var i := 0;
      while i < |v.items|
        invariant 0 <= i <= |v.items| && |ids| == i
        invariant Closed(nodes) && Extends(old(nodes), nodes)
        invariant Ascending(ids, |old(nodes)|, |nodes|)
        invariant forall j :: 0 <= j < i ==> SchemaShaped(v.items[j])
        invariant ElementsRead(nodes, ids, v, i)
      {
        ghost var before := nodes;
        var c := Read(v.items[i]);
        if c.Failure? {
          return Failure(c.error);
        }
        SchemasShapedSnoc(v.items, i);
        AscendingSnoc(ids, |old(nodes)|, |before|, c.value, |nodes|);
        ElementsReadStable(before, nodes, ids, v, i, 0);
        ids := ids + [c.value];
        i := i + 1;
      }
      return Success(ids);
    }

    /** The member dispatch: the handler selected by the name, applied to the value. */
    method LoadProperty(id: Id, name: string, v: Json) returns (r: Status<ReadError>)
      requires id < |nodes| && Closed(nodes)
      modifies this
      ensures Closed(nodes) && Keeps(old(nodes), nodes, id)
      ensures r.Done? <==> MemberShaped(name, v)
      ensures r.Done? && !IsStructured(KeywordOf(name)) ==> LoadPlain(old(nodes)[id].attrs, KeywordOf(name), name, v).Success?
      ensures r.Done? && !IsStructured(KeywordOf(name)) ==>
        nodes == old(nodes)[id := old(nodes)[id].(attrs := LoadPlain(old(nodes)[id].attrs, KeywordOf(name), name, v).value)]
      ensures r.Done? ==> MemberRead(nodes, id, old(nodes)[id], name, v)
      decreases v, 3
    {
      var k := KeywordOf(name);
      if !IsStructured(k) {
        r := LoadPlainMember(id, k, name, v);
        return;
      }
      SchemaKeywordCases(k, v);
      SingleKeywordCases(k, v);
      TableKeywordCases(k, v);
      if k.AdditionalItemsKw? || k.AdditionalPropertiesKw? {
        ghost var child;
        r, child := LoadAdditional(id, k, v);
      } else if IsListKeyword(k) {
        ghost var ids;
        r, ids := LoadSchemaList(id, k, v);
      } else if IsSingleKeyword(k) {
        ghost var child;
        r, child := LoadSingle(id, k, v);
      } else if k.ItemsKw? {
        ghost var ids;
        r, ids := LoadItems(id, v);
      } else if k.PropertiesKw? || k.PatternPropertiesKw? {
        ghost var entries;
        r, entries := LoadSchemaTable(id, k, v);
      } else if k.DependenciesKw? {
        ghost var deps;
        r, deps := LoadDependencies(id, v);
      } else {
        if k.EnumKw? {
          r := LoadEnum(id, v);
        } else if k.RequiredKw? {
          r := LoadRequired(id, v);
        } else {
          r := LoadType(id, v);
        }
        if r.Done? {
          AttrStructured(nodes, id, old(nodes)[id], k, v);
        }
      }
    }

    /** A handler without sub-schemas: the node's attributes as the pure handler computes them. */
    method LoadPlainMember(id: Id, k: SchemaKeyword, name: string, v: Json) returns (r: Status<ReadError>)
      requires !IsStructured(k) && id < |nodes| && Closed(nodes)
      modifies this
      ensures Closed(nodes) && Keeps(old(nodes), nodes, id)
      ensures r.Done? <==> PlainAccepts(k, v)
      ensures r.Done? ==> LoadPlain(old(nodes)[id].attrs, k, name, v).Success?
      ensures r.Done? ==> nodes == old(nodes)[id := old(nodes)[id].(attrs := LoadPlain(old(nodes)[id].attrs, k, name, v).value)]
    {
      LoadPlainAccepts(nodes[id].attrs, k, name, v);
      var a := LoadPlain(nodes[id].attrs, k, name, v);
      if a.Failure? {
        return Raised(a.error);
      }
      var s := nodes[id];
      Store(id, s.(attrs := a.value));
      return Done;
    }

    /**
     * additionalItems and additionalProperties: a boolean sets the flag and
     * clears the schema, an object sets the flag and reads the schema, so a
     * false flag never has a schema.
     */
    method LoadAdditional(id: Id, k: SchemaKeyword, v: Json) returns (r: Status<ReadError>, ghost child: Id)
      requires k.AdditionalItemsKw? || k.AdditionalPropertiesKw?
      requires id < |nodes| && Closed(nodes)
      modifies this
      ensures Closed(nodes) && Keeps(old(nodes), nodes, id)
      ensures r.Done? <==> AdditionalShaped(v)
      ensures r.Done? && v.Bool? ==> nodes[id] == WithAdditional(old(nodes)[id], k, v.b, None)
      ensures r.Done? && v.Obj? ==> child >= |old(nodes)| && nodes[id] == WithAdditional(old(nodes)[id], k, true, Some(child))
      ensures r.Done? ==> StructuredRead(nodes, id, old(nodes)[id], k, v)
      decreases v, 2
    {
      child := 0;
      if v.Bool? {
        var s := nodes[id];
        AdditionalOk(s, k, v.b, None, |nodes|);
        Store(id, WithAdditional(s, k, v.b, None));
        AdditionalStructured(nodes, id, s, k, None, v);
        return Done, child;
      }
      if !v.Obj? {
        return Raised(Malformed), child;
      }
      var c := Read(v);
      if c.Failure? {
        return Raised(c.error), child;
      }
      child := c.value;
      var s := nodes[id];
      AdditionalOk(s, k, true, Some(c.value), |nodes|);
      ghost var read := nodes;
      Store(id, WithAdditional(s, k, true, Some(c.value)));
      ReadAsStable(read, nodes, c.value, v);
      AdditionalStructured(nodes, id, s, k, Some(c.value), v);
      return Done, child;
    }

    /** allOf, anyOf and oneOf: the list is replaced by one new node per array element, in order. */
    method LoadSchemaList(id: Id, k: SchemaKeyword, v: Json) returns (r: Status<ReadError>, ghost ids: seq<Id>)
      requires IsListKeyword(k) && id < |nodes| && Closed(nodes)
      modifies this
      ensures Closed(nodes) && Keeps(old(nodes), nodes, id)
      ensures r.Done? <==> ArrayOfSchemas(v)
      ensures r.Done? ==> v.Arr? && |ids| == |v.items| && Ascending(ids, |old(nodes)|, |nodes|)
      ensures r.Done? ==> nodes[id] == WithList(old(nodes)[id], k, ids)
      ensures r.Done? ==> StructuredRead(nodes, id, old(nodes)[id], k, v)
      decreases v, 2
    {
      ids := [];
      if !v.Arr? {
        return Raised(Malformed), ids;
      }
      var rs := ReadAll(v);
      if rs.Failure? {
        return Raised(rs.error), ids;
      }
      ids := rs.value;
      var s := nodes[id];
      ListOk(s, k, rs.value, |old(nodes)|, |nodes|);
      ghost var read := nodes;
      Store(id, WithList(s, k, rs.value));
      ElementsReadStable(read, nodes, rs.value, v, |v.items|, id + 1);
      ListStructured(nodes, id, s, k, rs.value, v);
      return Done, ids;
    }

    /** contains, else, if, not and then: the field is set to a new node read from the value. */
    method LoadSingle(id: Id, k: SchemaKeyword, v: Json) returns (r: Status<ReadError>, ghost child: Id)
      requires IsSingleKeyword(k) && id < |nodes| && Closed(nodes)
      modifies this
      ensures Closed(nodes) && Keeps(old(nodes), nodes, id)
      ensures r.Done? <==> SchemaShaped(v)
      ensures r.Done? ==> child >= |old(nodes)| && nodes[id] == WithSingle(old(nodes)[id], k, child)
      ensures r.Done? ==> StructuredRead(nodes, id, old(nodes)[id], k, v)
      decreases v, 2
    {
      child := 0;
      var c := Read(v);
      if c.Failure? {
        return Raised(c.error), child;
      }
      child := c.value;
      var s := nodes[id];
      SingleOk(s, k, c.value, |nodes|);
      ghost var read := nodes;
      Store(id, WithSingle(s, k, c.value));
      ReadAsStable(read, nodes, c.value, v);
      SingleStructured(nodes, id, s, k, c.value, v);
      return Done, child;
    }

    /**
     * items: an object is single-schema mode with exactly one item, an array is
     * positional mode with one item per element in order, and the items read
     * before are dropped.
     */
    method LoadItems(id: Id, v: Json) returns (r: Status<ReadError>, ghost ids: seq<Id>)
      requires id < |nodes| && Closed(nodes)
      modifies this
      ensures Closed(nodes) && Keeps(old(nodes), nodes, id)
      ensures r.Done? <==> ItemsShaped(v)
      ensures r.Done? ==> Ascending(ids, |old(nodes)|, |nodes|)
      ensures r.Done? && v.Obj? ==> |ids| == 1 && nodes[id] == WithItems(old(nodes)[id], false, ids)
      ensures r.Done? && v.Arr? ==> |ids| == |v.items| && nodes[id] == WithItems(old(nodes)[id], true, ids)
      ensures r.Done? ==> StructuredRead(nodes, id, old(nodes)[id], ItemsKw, v)
      decreases v, 2
    {
      var refs: seq<Id>;
      ghost var read: seq<Schema<Id>>;
      if v.Obj? {
        var c := Read(v);
        if c.Failure? {
          return Raised(c.error), [];
        }
        refs := [c.value];
      } else if v.Arr? {
        var rs := ReadAll(v);
        if rs.Failure? {
          return Raised(rs.error), [];
        }
        refs := rs.value;
      } else {
        return Raised(Malformed), [];
      }
      ids := refs;
      var s := nodes[id];
      ItemsOk(s, v.Arr?, refs, |old(nodes)|, |nodes|);
      read := nodes;
      Store(id, WithItems(s, v.Arr?, refs));
      if v.Obj? {
        ReadAsStable(read, nodes, refs[0], v);
      } else {
        ElementsReadStable(read, nodes, refs, v, |v.items|, id + 1);
      }
      ItemsStructured(nodes, id, s, refs, v);
      return Done, ids;
    }

    /** Reading the member values of an object as schemas, each stored under its member name. */
    method ReadTable(v: Json) returns (r: Result<seq<(string, Id)>, ReadError>)
      requires v.Obj? && Closed(nodes)
      modifies this
      ensures Closed(nodes) && Extends(old(nodes), nodes)
      ensures r.Success? <==> TableShaped(v)
      ensures r.Success? ==> TableRead(r.value, v.members, |old(nodes)|, |nodes|)
      ensures r.Success? ==> EntriesRead(nodes, r.value, v)
      decreases v, 1
    {
      var ms := v.members;
      var table: seq<(string, Id)> := [];
      var i := 0;
      while i < |ms|
        invariant 0 <= i <= |ms|
        invariant Closed(nodes) && Extends(old(nodes), nodes)
        invariant TableRead(table, ms[..i], |old(nodes)|, |nodes|)
        invariant forall j :: 0 <= j < i ==> SchemaShaped(ms[j].1)
        invariant EntriesRead(nodes, table, Json.Obj(ms[..i]))
      {
        assert ms[i] in ms;
        ghost var before := nodes;
        var c := Read(ms[i].1);
        if c.Failure? {
          return Failure(c.error);
        }
        ValuesShapedSnoc(ms, i);
        TableReadSnoc(table, ms, i, c.value, |old(nodes)|, |before|, |nodes|);
        EntriesReadStable(before, nodes, table, Json.Obj(ms[..i]), 0);
        EntriesReadSnoc(nodes, table, ms, i, c.value);
        table := Put(table, ms[i].0, c.value);
        i := i + 1;
      }
      assert ms[..|ms|] == ms;
      return Success(table);
    }

    /**
     * properties and patternProperties: the table is cleared and each member
     * stores a new node under its name, a later member of the same name
     * replacing the earlier one in place.
     */
    method LoadSchemaTable(id: Id, k: SchemaKeyword, v: Json) returns (r: Status<ReadError>, ghost entries: seq<(string, Id)>)
      requires (k.PropertiesKw? || k.PatternPropertiesKw?) && id < |nodes| && Closed(nodes)
      modifies this
      ensures Closed(nodes) && Keeps(old(nodes), nodes, id)
      ensures r.Done? <==> TableShaped(v)
      ensures r.Done? ==> v.Obj? && TableRead(entries, v.members, |old(nodes)|, |nodes|)
      ensures r.Done? ==> nodes[id] == WithTable(old(nodes)[id], k, entries)
      ensures r.Done? ==> StructuredRead(nodes, id, old(nodes)[id], k, v)
      decreases v, 2
    {
      entries := [];
      if !v.Obj? {
        return Raised(Malformed), entries;
      }
      var t := ReadTable(v);
      if t.Failure? {
        return Raised(t.error), entries;
      }
      entries := t.value;
      var s := nodes[id];
      TableOk(s, k, t.value, |old(nodes)|, |nodes|);
      ghost var read := nodes;
      Store(id, WithTable(s, k, t.value));
      EntriesReadStable(read, nodes, t.value, v, id + 1);
      TableStructured(nodes, id, s, k, t.value, v);
      return Done, entries;
    }

    /** One dependency value: a name, an array of names, or a new node read from a schema object. */
    method ReadDependency(x: Json) returns (r: Result<DepValue<Id>, ReadError>)
      requires Closed(nodes)
      modifies this
      ensures Closed(nodes) && Extends(old(nodes), nodes)
      ensures r.Success? <==> DependencyShaped(x)
      ensures r.Success? ==> DepRead(r.value, x, |old(nodes)|)
      ensures r.Success? && r.value.SchemaDep? ==> r.value.schema < |nodes| && ReadAs(nodes, r.value.schema, x)
      decreases x, 2
    {
      match x {
        case Str(s) =>
          return Success(Names([s]));
        case Arr(xs) =>
          var names := DependencyNames(xs);
          if names.Failure? {
            return Failure(names.error);
          }
          return Success(Names(names.value));
        case Obj(_) =>
          var c := Read(x);
          if c.Failure? {
            return Failure(c.error);
          }
          return Success(SchemaDep(c.value));
        case _ =>
          return Failure(Malformed);
      }
    }

    /** Reading the member values of an object as dependencies, each stored under its member name. */
    method ReadDependencies(v: Json) returns (r: Result<seq<(string, DepValue<Id>)>, ReadError>)
      requires v.Obj? && Closed(nodes)
      modifies this
      ensures Closed(nodes) && Extends(old(nodes), nodes)
      ensures r.Success? <==> DependenciesShaped(v)
      ensures r.Success? ==> DepsRead(r.value, v.members, |old(nodes)|, |nodes|)
      ensures r.Success? ==> DepsChildrenRead(nodes, r.value, v)
      decreases v, 1
    {
      var ms := v.members;
      var table: seq<(string, DepValue<Id>)> := [];
      var i := 0;
      while i < |ms|
        invariant 0 <= i <= |ms|
        invariant Closed(nodes) && Extends(old(nodes), nodes)
        invariant DepsRead(table, ms[..i], |old(nodes)|, |nodes|)
        invariant forall j :: 0 <= j < i ==> DependencyShaped(ms[j].1)
        invariant DepsChildrenRead(nodes, table, Json.Obj(ms[..i]))
      {
        assert ms[i] in ms;
        ghost var before := nodes;
        var d := ReadDependency(ms[i].1);
        if d.Failure? {
          return Failure(d.error);
        }
        DependenciesShapedSnoc(ms, i);
        DepsReadSnoc(table, ms, i, d.value, |old(nodes)|, |before|, |nodes|);
        DepsChildrenReadStable(before, nodes, table, Json.Obj(ms[..i]), 0);
        DepsChildrenReadSnoc(nodes, table, ms, i, d.value);
        table := Put(table, ms[i].0, d.value);
        i := i + 1;
      }
      assert ms[..|ms|] == ms;
      return Success(table);
    }

    /**
     * dependencies: the table is cleared and each member stores, under its
     * name, the dependency read from its value.
     */
    method LoadDependencies(id: Id, v: Json) returns (r: Status<ReadError>, ghost deps: seq<(string, DepValue<Id>)>)
      requires id < |nodes| && Closed(nodes)
      modifies this
      ensures Closed(nodes) && Keeps(old(nodes), nodes, id)
      ensures r.Done? <==> DependenciesShaped(v)
      ensures r.Done? ==> v.Obj? && DepsRead(deps, v.members, |old(nodes)|, |nodes|)
      ensures r.Done? ==> nodes[id] == old(nodes)[id].(subs := old(nodes)[id].subs.(dependencies := deps))
      ensures r.Done? ==> StructuredRead(nodes, id, old(nodes)[id], DependenciesKw, v)
      decreases v, 2
    {
      deps := [];
      if !v.Obj? {
        return Raised(Malformed), deps;
      }
      var t := ReadDependencies(v);
      if t.Failure? {
        return Raised(t.error), deps;
      }
      deps := t.value;
      var s := nodes[id];
      DepsOk(s, t.value, |nodes|);
      ghost var read := nodes;
      Store(id, s.(subs := s.subs.(dependencies := t.value)));
      DepsChildrenReadStable(read, nodes, t.value, v, id + 1);
      DepsStructured(nodes, id, s, t.value, v);
      return Done, deps;
    }

    /** enum: the list is cleared and every array element appended in order. */
    method LoadEnum(id: Id, v: Json) returns (r: Status<ReadError>)
      requires id < |nodes| && Closed(nodes)
      modifies this
      ensures Closed(nodes) && Keeps(old(nodes), nodes, id)
      ensures r.Done? <==> v.Arr?
      ensures r.Done? ==> nodes == old(nodes)[id := old(nodes)[id].(attrs := old(nodes)[id].attrs.(enumValues := v.items))]
    {
      if !v.Arr? {
        return Raised(Malformed);
      }
      var values: seq<Json> := [];
      var i := 0;
      while i < |v.items|
        invariant 0 <= i <= |v.items| && values == v.items[..i]
      {
        values := values + [v.items[i]];
        i := i + 1;
      }
      assert values == v.items;
      var s := nodes[id];
      Store(id, s.(attrs := s.attrs.(enumValues := values)));
      return Done;
    }

    /** required: the list is cleared and every string appended in order; a non-string is malformed. */
    method LoadRequired(id: Id, v: Json) returns (r: Status<ReadError>)
      requires id < |nodes| && Closed(nodes)
      modifies this
      ensures Closed(nodes) && Keeps(old(nodes), nodes, id)
      ensures r.Done? <==> v.Arr? && AllStrings(v.items)
      ensures r.Raised? ==> r.error == Malformed
      ensures r.Done? ==> nodes == old(nodes)[id := old(nodes)[id].(attrs := old(nodes)[id].attrs.(required := StringsOf(v.items)))]
    {
      if !v.Arr? {
        return Raised(Malformed);
      }
      var names: seq<string> := [];
      var i := 0;
      while i < |v.items|
        invariant 0 <= i <= |v.items| && |names| == i
        invariant forall j :: 0 <= j < i ==> v.items[j].Str? && names[j] == v.items[j].s
      {
        if !v.items[i].Str? {
          return Raised(Malformed);
        }
        names := names + [v.items[i].s];
        i := i + 1;
      }
      assert names == StringsOf(v.items);
      var s := nodes[id];
      Store(id, s.(attrs := s.attrs.(required := names)));
      return Done;
    }

    /** type: the node's type is the one read from the value. */
    method LoadType(id: Id, v: Json) returns (r: Status<ReadError>)
      requires id < |nodes| && Closed(nodes)
      modifies this
      ensures Closed(nodes) && Keeps(old(nodes), nodes, id)
      ensures r.Done? <==> TypeShaped(v)
      ensures r.Done? ==> TypeFromElement(v).Success?
      ensures r.Done? ==> nodes == old(nodes)[id := old(nodes)[id].(attrs := old(nodes)[id].attrs.(schemaType := TypeFromElement(v).value))]
    {
      TypeFromElementCases(v);
      var t: Option<TypeSet>;
      match v {
        case Null =>
          t := None;
        case Str(name) =>
          var x := TypeFromString(name);
          if x.Failure? {
            return Raised(x.error);
          }
          t := Some(x.value);
        case Arr(items) =>
          var x := TypeFromArrayElement(items);
          if x.Failure? {
            return Raised(x.error);
          }
          t := Some(x.value);
        case _ =>
          return Raised(Malformed);
      }
      var s := nodes[id];
      Store(id, s.(attrs := s.attrs.(schemaType := t)));
      return Done;
    }
  }
}
