/**
 * The keyed tables behind a schema node: the dictionary base with
 * overridable add, set, remove and clear steps, the dependency table that
 * counts its schema-valued entries, and the stand-alone pattern table that
 * stores each schema together with its pattern.
 */
module Dictionaries {
  import opened Wrappers
  import opened Schemas

  datatype DictError = ArgumentNull | DuplicateKey | KeyNotFound

  /**
   * A key as the untyped dictionary interface receives it: null, a key of the
   * table's key type, or an object of some other type.
   */
  datatype ObjectKey<K> = NullKey | TypedKey(key: K) | ForeignKey

  /** A dictionary over an inner map that it updates in place. */
  class DictionaryBase<K(==), V(==)> {
    var items: map<K, V>

    constructor()
      ensures items == map[]
    {
      items := map[];
    }

    /** The number of entries is the size of the inner map. */
    function Count(): nat
      reads this
    {
      |items|
    }

    /** Adding a key that is already present fails and changes nothing. */
    method Add(key: K, value: V) returns (s: Status<DictError>)
      modifies this
      ensures key in old(items) ==> s == Raised(DuplicateKey) && items == old(items)
      ensures key !in old(items) ==> s == Done && items == old(items)[key := value]
    {
      if key in items {
        return Raised(DuplicateKey);
      }
      items := items[key := value];
      return Done;
    }

    /** The indexer set inserts a new key or overwrites the value of an existing one. */
    method SetItem(key: K, value: V)
      modifies this
      ensures items == old(items)[key := value]
      ensures key in items && items[key] == value
    {
      items := items[key := value];
    }

    /** The indexer get: an absent key is an error. */
    function Get(key: K): (r: Result<V, DictError>)
      reads this
      ensures r.Success? <==> key in items
      ensures r.Success? ==> r.value == items[key]
      ensures r.Failure? ==> r.error == KeyNotFound
    {
      if key in items then Success(items[key]) else Failure(KeyNotFound)
    }

    function TryGetValue(key: K): (r: Option<V>)
      reads this
      ensures r.Some? <==> key in items
      ensures r.Some? ==> r.value == items[key]
    {
      if key in items then Some(items[key]) else None
    }

    /**
     * The untyped indexer get: a null key is an error, a key of another type
     * and an absent key both read as null.
     */
    function GetObject(key: ObjectKey<K>): (r: Result<Option<V>, DictError>)
      reads this
      ensures r.Failure? <==> key.NullKey?
      ensures r.Failure? ==> r.error == ArgumentNull
      ensures key.ForeignKey? ==> r == Success(None)
      ensures key.TypedKey? ==> r == Success(TryGetValue(key.key))
    {
      match key
      case NullKey => Failure(ArgumentNull)
      case ForeignKey => Success(None)
      case TypedKey(k) => Success(TryGetValue(k))
    }

    /** Removing a key reports whether it was present and deletes only that key. */
    method Remove(key: K) returns (removed: bool)
      modifies this
      ensures removed <==> key in old(items)
      ensures items == old(items) - {key}
    {
      removed := key in items;
      items := items - {key};
    }

    /** Removing a pair deletes the key only when it maps to an equal value. */
    method RemovePair(key: K, value: V) returns (removed: bool)
      modifies this
      ensures removed <==> key in old(items) && old(items)[key] == value
      ensures removed ==> items == old(items) - {key}
      ensures !removed ==> items == old(items)
    {
      var found := TryGetValue(key);
      if found.Some? && found.value == value {
        removed := Remove(key);
        return true;
      }
      return false;
    }

    method Clear()
      modifies this
      ensures items == map[]
    {
      items := map[];
    }
  }

  /** The keys of a dependency table whose value is a schema. */
  function SchemaKeys(m: map<string, DepValue<Id>>): (ks: set<string>)
    ensures forall k :: k in ks <==> k in m && m[k].SchemaDep?
  {
    set k | k in m && m[k].SchemaDep?
  }

  /** Storing a value changes the schema keys by at most the stored key. */
  lemma SchemaKeysUpdate(m: map<string, DepValue<Id>>, key: string, value: DepValue<Id>)
    ensures |SchemaKeys(m[key := value])| ==
      |SchemaKeys(m)| - (if key in m && m[key].SchemaDep? then 1 else 0) + (if value.SchemaDep? then 1 else 0)
  {
    var before := SchemaKeys(m);
    var rest := before - {key};
    if key in m && m[key].SchemaDep? {
      assert before == rest + {key};
    } else {
      assert before == rest;
    }
    if value.SchemaDep? {
      assert SchemaKeys(m[key := value]) == rest + {key};
    } else {
      assert SchemaKeys(m[key := value]) == rest;
    }
  }

  /** Deleting a key drops it from the schema keys. */
  lemma SchemaKeysRemove(m: map<string, DepValue<Id>>, key: string)
    ensures |SchemaKeys(m - {key})| == |SchemaKeys(m)| - (if key in m && m[key].SchemaDep? then 1 else 0)
  {
    var before := SchemaKeys(m);
    assert SchemaKeys(m - {key}) == before - {key};
    if key in m && m[key].SchemaDep? {
      assert before == (before - {key}) + {key};
    } else {
      assert before == before - {key};
    }
  }

  /** A table has schema keys exactly when one of its values is a schema. */
  lemma {:induction false} SchemaKeysNonEmpty(m: map<string, DepValue<Id>>)
    ensures |SchemaKeys(m)| > 0 <==> exists k :: k in m && m[k].SchemaDep?
  {
    if |SchemaKeys(m)| > 0 {
      var k :| k in SchemaKeys(m);
      assert k in m && m[k].SchemaDep?;
    }
    if exists k :: k in m && m[k].SchemaDep? {
      var k :| k in m && m[k].SchemaDep?;
      assert k in SchemaKeys(m);
    }
  }

  /**
   * The dependency table: the dictionary base with add, set, remove and clear
   * overridden to keep a count of the schema-valued entries.
   */
  class DependencyDictionary {
    const table: DictionaryBase<string, DepValue<Id>>
    var count: int

    /** The counter equals the number of schema-valued entries. */
    ghost predicate Valid()
      reads this, table
    {
      count == |SchemaKeys(table.items)|
    }

    predicate HasSchemas()
      reads this
    {
      count > 0
    }

    constructor()
      ensures Valid() && fresh(table) && table.items == map[] && count == 0
    {
      table := new DictionaryBase();
      count := 0;
    }

    /** HasSchemas holds exactly when some entry holds a schema. */
    lemma HasSchemasIff()
      requires Valid()
      ensures HasSchemas() <==> exists k :: k in table.items && table.items[k].SchemaDep?
    {
      SchemaKeysNonEmpty(table.items);
    }

    /** Adding counts a schema value; a duplicate key fails before the count changes. */
    method AddItem(key: string, value: DepValue<Id>) returns (s: Status<DictError>)
      requires Valid()
      modifies this, table
      ensures Valid()
      ensures key in old(table.items) ==> s == Raised(DuplicateKey) && table.items == old(table.items) && count == old(count)
      ensures key !in old(table.items) ==> s == Done && table.items == old(table.items)[key := value]
      ensures key !in old(table.items) ==> count == old(count) + (if value.SchemaDep? then 1 else 0)
    {
      SchemaKeysUpdate(table.items, key, value);
      s := table.Add(key, value);
      if s.Raised? {
        return;
      }
      if value.SchemaDep? {
        count := count + 1;
      }
    }

    /** Clearing empties the table and resets the count. */
    method ClearItems()
      requires Valid()
      modifies this, table
      ensures Valid() && table.items == map[] && count == 0
    {
      table.Clear();
      count := 0;
    }

    /** Removing an absent key reports false; removing a schema entry decrements the count. */
    method RemoveItem(key: string) returns (removed: bool)
      requires Valid()
      modifies this, table
      ensures Valid()
      ensures removed <==> key in old(table.items)
      ensures table.items == old(table.items) - {key}
      ensures count == old(count) - (if key in old(table.items) && old(table.items)[key].SchemaDep? then 1 else 0)
    {
      var found := table.TryGetValue(key);
      if found.None? {
        assert table.items - {key} == table.items;
        return false;
      }
      SchemaKeysRemove(table.items, key);
      var _ := table.Remove(key);
      if found.value.SchemaDep? {
        count := count - 1;
      }
      return true;
    }

    /**
     * Setting a key: storing the schema the key already holds is a no-op,
     * otherwise a replaced schema is uncounted and a stored schema counted.
     */
    method SetItem(key: string, value: DepValue<Id>)
      requires Valid()
      modifies this, table
      ensures Valid()
      ensures table.items == old(table.items)[key := value]
      ensures count == old(count) - (if key in old(table.items) && old(table.items)[key].SchemaDep? then 1 else 0)
                                  + (if value.SchemaDep? then 1 else 0)
      ensures key in old(table.items) && old(table.items)[key].SchemaDep? && old(table.items)[key] == value ==>
                table.items == old(table.items) && count == old(count)
    {
      SchemaKeysUpdate(table.items, key, value);
      var found := table.TryGetValue(key);
      if found.Some? && found.value.SchemaDep? {
        if found.value == value {
          assert table.items[key := value] == table.items;
          return;
        }
        count := count - 1;
      }
      table.SetItem(key, value);
      if value.SchemaDep? {
        count := count + 1;
      }
    }

    /** Removing a pair goes through the overridden remove, so the count follows. */
    method RemovePair(key: string, value: DepValue<Id>) returns (removed: bool)
      requires Valid()
      modifies this, table
      ensures Valid()
      ensures removed <==> key in old(table.items) && old(table.items)[key] == value
      ensures removed ==> table.items == old(table.items) - {key}
      ensures !removed ==> table.items == old(table.items) && count == old(count)
    {
      var found := table.TryGetValue(key);
      if found.Some? && found.value == value {
        removed := RemoveItem(key);
        return true;
      }
      return false;
    }
  }

  /** A pattern-table entry: the schema together with the pattern it is stored under. */
  datatype PatternSchema = PatternSchema(pattern: string, schema: Id)

  /** The stand-alone pattern table over an inner map of pattern entries. */
  class PatternDictionary {
    var inner: map<string, PatternSchema>

    /** Every entry records the key it is stored under as its pattern. */
    ghost predicate Valid()
      reads this
    {
      forall k :: k in inner ==> inner[k].pattern == k
    }

    constructor()
      ensures Valid() && inner == map[]
    {
      inner := map[];
    }

    function Count(): nat
      reads this
    {
      |inner|
    }

    /** The indexer get: the schema of an existing key. */
    function Get(key: string): (r: Result<Id, DictError>)
      reads this
      ensures r.Success? <==> key in inner
      ensures r.Success? ==> r.value == inner[key].schema
      ensures r.Failure? ==> r.error == KeyNotFound
    {
      if key in inner then Success(inner[key].schema) else Failure(KeyNotFound)
    }

    /** The indexer set stores a fresh entry that records the key as its pattern. */
    method SetItem(key: string, schema: Id)
      requires Valid()
      modifies this
      ensures Valid()
      ensures inner == old(inner)[key := PatternSchema(key, schema)]
      ensures Get(key) == Success(schema)
    {
      inner := inner[key := PatternSchema(key, schema)];
    }

    /** Adding an existing key fails and leaves the table unchanged. */
    method Add(key: string, schema: Id) returns (s: Status<DictError>)
      requires Valid()
      modifies this
      ensures Valid()
      ensures key in old(inner) ==> s == Raised(DuplicateKey) && inner == old(inner)
      ensures key !in old(inner) ==> s == Done && inner == old(inner)[key := PatternSchema(key, schema)]
    {
      if key in inner {
        return Raised(DuplicateKey);
      }
      inner := inner[key := PatternSchema(key, schema)];
      return Done;
    }

    method Clear()
      modifies this
      ensures Valid() && inner == map[]
    {
      inner := map[];
    }

    function ContainsKey(key: string): bool
      reads this
    {
      key in inner
    }

    /** A pair is contained when the key is present and holds that same schema. */
    function Contains(key: string, schema: Id): (b: bool)
      reads this
      ensures b <==> Get(key) == Success(schema)
    {
      key in inner && inner[key].schema == schema
    }

    method Remove(key: string) returns (removed: bool)
      requires Valid()
      modifies this
      ensures Valid()
      ensures removed <==> key in old(inner)
      ensures inner == old(inner) - {key}
    {
      removed := key in inner;
      inner := inner - {key};
    }

    /** Removing a pair deletes the key only on a key-and-schema match. */
    method RemovePair(key: string, schema: Id) returns (removed: bool)
      requires Valid()
      modifies this
      ensures Valid()
      ensures removed <==> old(Contains(key, schema))
      ensures removed ==> inner == old(inner) - {key}
      ensures !removed ==> inner == old(inner)
    {
      if Contains(key, schema) {
        removed := Remove(key);
        return true;
      }
      return false;
    }

    /** Looking up a key: the schema for a present key, nothing for an absent one. */
    function TryGetValue(key: string): (r: Option<Id>)
      reads this
      ensures r.Some? <==> key in inner
      ensures r.Some? ==> Contains(key, r.value)
    {
      if key in inner then Some(inner[key].schema) else None
    }
  }
}
