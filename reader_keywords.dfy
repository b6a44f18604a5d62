/**
 * The keyword side of the schema reader: which handler a member name
 * selects, the type-name table and type unions, and the handlers whose value
 * holds no sub-schema.
 */
module ReaderKeywords {
  import opened Wrappers
  import opened JsonValues
  import opened SchemaTypes
  import opened Uris
  import opened Schemas

  /**
   * The reader's errors: a value of the wrong shape, a string read from a
   * non-string, a number that is not a 64-bit integer, a text that is not an
   * absolute URI, and a keyword the reader does not implement.
   */
  datatype ReadError = Malformed | InvalidOperation | Format | UriFormat | NotImplemented

  /** The handler a member name selects; every other name is extension data. */
  datatype SchemaKeyword =
    | AdditionalItemsKw | AdditionalPropertiesKw | AllOfKw | AnyOfKw | ConstKw | ContainsKw
    | ContentEncodingKw | ContentMediaTypeKw | DefaultKw | DependenciesKw | DescriptionKw
    | DisallowKw | DivisibleByKw | ElseKw | EnumKw | ExclusiveMaximumKw | ExclusiveMinimumKw
    | FormatKw | IdKw | IfKw | ItemsKw | MaximumKw | MaximumItemsKw | MaximumLengthKw
    | MaximumPropertiesKw | MinimumKw | MinimumItemsKw | MinimumLengthKw | MinimumPropertiesKw
    | MultipleOfKw | NotKw | OneOfKw | PatternKw | PatternPropertiesKw | PropertiesKw
    | PropertyNamesKw | ReadOnlyKw | RefKw | RequiredKw | SchemaKw | ThenKw | TitleKw | TypeKw
    | UniqueItemsKw | ValidKw | WriteOnlyKw | ExtensionKw

  /** The member-name dispatch of the reader: the handler each recognised name selects; names compare ordinally. */
  const KeywordTable: map<string, SchemaKeyword> := map[
    "additionalItems" := AdditionalItemsKw,
    "additionalProperties" := AdditionalPropertiesKw,
    "allOf" := AllOfKw,
    "anyOf" := AnyOfKw,
    "const" := ConstKw,
    "contains" := ContainsKw,
    "contentEncoding" := ContentEncodingKw,
    "contentMediaType" := ContentMediaTypeKw,
    "default" := DefaultKw,
    "dependencies" := DependenciesKw,
    "description" := DescriptionKw,
    "disallow" := DisallowKw,
    "divisibleBy" := DivisibleByKw,
    "else" := ElseKw,
    "enum" := EnumKw,
    "exclusiveMaximum" := ExclusiveMaximumKw,
    "exclusiveMinimum" := ExclusiveMinimumKw,
    "format" := FormatKw,
    "$id" := IdKw,
    "if" := IfKw,
    "items" := ItemsKw,
    "maximum" := MaximumKw,
    "maximumItems" := MaximumItemsKw,
    "maximumLength" := MaximumLengthKw,
    "maximumProperties" := MaximumPropertiesKw,
    "minimum" := MinimumKw,
    "minimumItems" := MinimumItemsKw,
    "minimumLength" := MinimumLengthKw,
    "minimumProperties" := MinimumPropertiesKw,
    "multipleOf" := MultipleOfKw,
    "not" := NotKw,
    "oneOf" := OneOfKw,
    "pattern" := PatternKw,
    "patternProperties" := PatternPropertiesKw,
    "properties" := PropertiesKw,
    "propertyNames" := PropertyNamesKw,
    "readOnly" := ReadOnlyKw,
    "$ref" := RefKw,
    "required" := RequiredKw,
    "$schema" := SchemaKw,
    "then" := ThenKw,
    "title" := TitleKw,
    "type" := TypeKw,
    "uniqueItems" := UniqueItemsKw,
    "valid" := ValidKw,
    "writeOnly" := WriteOnlyKw]

  /** The member names the reader recognises. */
  const KeywordNames: set<string> := KeywordTable.Keys

  /** The handler a member name selects; every name outside the table is extension data. */
  function KeywordOf(name: string): SchemaKeyword
  {
    if name in KeywordTable then KeywordTable[name] else ExtensionKw
  }

  /** Every name outside the table is extension data, the standard spellings maxItems, minLength and so on among them. */
  lemma UnknownNamesAreExtensions(name: string)
    requires name !in KeywordNames
    ensures KeywordOf(name) == ExtensionKw
  {
  }

  /** The keywords whose handler reads sub-schemas or loops over the value. */
  predicate IsStructured(k: SchemaKeyword)
  {
    k.AdditionalItemsKw? || k.AdditionalPropertiesKw? || k.AllOfKw? || k.AnyOfKw? || k.OneOfKw? ||
    k.ContainsKw? || k.ElseKw? || k.IfKw? || k.NotKw? || k.ThenKw? || k.ItemsKw? ||
    k.PropertiesKw? || k.PatternPropertiesKw? || k.DependenciesKw? ||
    k.EnumKw? || k.RequiredKw? || k.TypeKw?
  }

  // The type-name table and type unions.

  const TypeNames: set<string> := {"array", "boolean", "integer", "none", "null", "number", "object", "string"}

  /** A type name from the fixed table; any other name is malformed. */
  function TypeFromString(name: string): (r: Result<TypeSet, ReadError>)
    ensures r.Success? <==> name in TypeNames
    ensures r.Failure? ==> r.error == Malformed
    ensures r.Success? ==> r.value == NoneType || r.value in Kinds
    ensures r.Success? && r.value == NoneType ==> name == "none"
  {
    if name == "array" then Success(ArrayType)
    else if name == "boolean" then Success(BooleanType)
    else if name == "integer" then Success(IntegerType)
    else if name == "none" then Success(NoneType)
    else if name == "null" then Success(NullType)
    else if name == "number" then Success(NumberType)
    else if name == "object" then Success(ObjectType)
    else if name == "string" then Success(StringType)
    else Failure(Malformed)
  }

  /** One entry of a type array: it must be a string naming a type. */
  function TypeOfEntry(v: Json): Result<TypeSet, ReadError>
  {
    if v.Str? then TypeFromString(v.s) else Failure(Malformed)
  }

  /** The union of the entries of a type array, combined left to right. */
  function TypeUnion(items: seq<Json>): Result<TypeSet, ReadError>
  {
    if |items| == 0 then Success(NoneType)
    else
      var t :- TypeUnion(items[..|items| - 1]);
      var x :- TypeOfEntry(items[|items| - 1]);
      Success(t | x)
  }

  predicate TypeNamesOnly(items: seq<Json>)
  {
    forall i :: 0 <= i < |items| ==> items[i].Str? && items[i].s in TypeNames
  }

  /** The type of each entry of a type array whose entries all name types. */
  function EntryTypes(items: seq<Json>): (ts: seq<TypeSet>)
    requires TypeNamesOnly(items)
    ensures |ts| == |items| && forall i :: 0 <= i < |items| ==> Success(ts[i]) == TypeFromString(items[i].s)
  {
    seq(|items|, i requires 0 <= i < |items| && TypeNamesOnly(items) => TypeFromString(items[i].s).value)
  }

  /** Adding a type at the end of a union is an OR with it. */
  lemma {:induction false} UnionOfSnoc(ts: seq<TypeSet>, t: TypeSet)
    ensures UnionOf(ts + [t]) == UnionOf(ts) | t
  {
    if |ts| > 0 {
      assert (ts + [t])[1..] == ts[1..] + [t];
      UnionOfSnoc(ts[1..], t);
    } else {
      assert [t][1..] == [];
    }
  }

  /**
   * A type array succeeds exactly when every entry is a string naming a type;
   * its value is then the bitwise OR of the entries' types.
   */
  lemma {:induction false} TypeUnionIsOr(items: seq<Json>)
    ensures TypeUnion(items).Success? <==> TypeNamesOnly(items)
    ensures TypeUnion(items).Failure? ==> TypeUnion(items).error == Malformed
    ensures TypeUnion(items).Success? ==> TypeUnion(items).value == UnionOf(EntryTypes(items))
  {
    if |items| > 0 {
      var front := items[..|items| - 1];
      TypeUnionIsOr(front);
      assert TypeNamesOnly(items) <==> TypeNamesOnly(front) && TypeOfEntry(items[|items| - 1]).Success? by {
        if TypeNamesOnly(front) && TypeOfEntry(items[|items| - 1]).Success? {
          forall i | 0 <= i < |items| ensures items[i].Str? && items[i].s in TypeNames {
            if i < |items| - 1 {
              assert items[i] == front[i];
            }
          }
        }
        if TypeNamesOnly(items) {
          forall i | 0 <= i < |front| ensures front[i].Str? && front[i].s in TypeNames {
            assert front[i] == items[i];
          }
        }
      }
      if TypeNamesOnly(items) {
        assert EntryTypes(items) == EntryTypes(front) + [TypeOfEntry(items[|items| - 1]).value];
        UnionOfSnoc(EntryTypes(front), TypeOfEntry(items[|items| - 1]).value);
      }
    }
  }

  /** The type array loop: an OR into an accumulator, stopping at the first bad entry. */
  method TypeFromArrayElement(items: seq<Json>) returns (r: Result<TypeSet, ReadError>)
    ensures r == TypeUnion(items)
  {
    var t := NoneType;
    var i := 0;
    while i < |items|
      invariant 0 <= i <= |items|
      invariant TypeUnion(items[..i]) == Success(t)
    {
      assert items[..i + 1][..i] == items[..i];
      var x := TypeOfEntry(items[i]);
      if x.Failure? {
        assert TypeUnion(items[..i + 1]).Failure?;
        TypeUnionPrefixFails(items, i + 1);
        return Failure(x.error);
      }
      t := t | x.value;
      i := i + 1;
    }
    assert items[..|items|] == items;
    return Success(t);
  }

  /** Once a prefix of the entries fails, the whole array fails with the same error. */
  lemma {:induction false} TypeUnionPrefixFails(items: seq<Json>, n: nat)
    requires n <= |items| && TypeUnion(items[..n]).Failure?
    ensures TypeUnion(items) == Failure(TypeUnion(items[..n]).error)
    decreases |items| - n
  {
    if n == |items| {
      assert items[..n] == items;
    } else {
      assert items[..n + 1][..n] == items[..n];
      TypeUnionPrefixFails(items, n + 1);
    }
  }

  /** The type keyword: null gives no type, a string goes through the table, an array is a union. */
  function TypeFromElement(v: Json): Result<Option<TypeSet>, ReadError>
  {
    match v
    case Null => Success(None)
    case Str(s) => var t :- TypeFromString(s); Success(Some(t))
    case Arr(items) => var t :- TypeUnion(items); Success(Some(t))
    case _ => Failure(Malformed)
  }

  /** The accepted shapes of a type value. */
  predicate TypeShaped(v: Json)
  {
    v.Null? || (v.Str? && v.s in TypeNames) || (v.Arr? && TypeNamesOnly(v.items))
  }

  /**
   * Reading a type: it succeeds exactly on the accepted shapes, every failure
   * is malformed, null gives no type and an array gives the OR of its entries.
   */
  lemma TypeFromElementCases(v: Json)
    ensures TypeFromElement(v).Success? <==> TypeShaped(v)
    ensures TypeFromElement(v).Failure? ==> TypeFromElement(v).error == Malformed
    ensures v.Null? ==> TypeFromElement(v) == Success(None)
    ensures v.Str? && v.s in TypeNames ==> TypeFromElement(v) == Success(Some(TypeFromString(v.s).value))
    ensures v.Arr? && TypeNamesOnly(v.items) ==> TypeFromElement(v) == Success(Some(UnionOf(EntryTypes(v.items))))
  {
    if v.Arr? {
      TypeUnionIsOr(v.items);
    }
  }

  // Handlers whose value holds no sub-schema.

  function ReadString(v: Json): Result<string, ReadError>
  {
    if v.Str? then Success(v.s) else Failure(Malformed)
  }

  function ReadNumber(v: Json): Result<real, ReadError>
  {
    if v.Num? then Success(v.n) else Failure(Malformed)
  }

  /** A number read as a signed 64-bit integer: a number it cannot hold is a format error. */
  function ReadInt64(v: Json): Result<int, ReadError>
  {
    if !v.Num? then Failure(Malformed)
    else match GetInt64(v.n)
      case Some(i) => Success(i)
      case None => Failure(Format)
  }

  /** true, false or null. */
  function ReadNullableBool(v: Json): Result<Option<bool>, ReadError>
  {
    match v
    case Bool(b) => Success(Some(b))
    case Null => Success(None)
    case _ => Failure(Malformed)
  }

  /** The six size keywords, whose value is a 64-bit integer. */
  predicate IsSizeKeyword(k: SchemaKeyword)
  {
    k.MaximumItemsKw? || k.MaximumLengthKw? || k.MaximumPropertiesKw? ||
    k.MinimumItemsKw? || k.MinimumLengthKw? || k.MinimumPropertiesKw?
  }

  /** A handler with no sub-schema applied to the attributes of a node. */
  function LoadPlain(a: Attributes, k: SchemaKeyword, name: string, v: Json): Result<Attributes, ReadError>
    requires !IsStructured(k)
  {
    match k
    case ConstKw => Success(a.(constValue := Some(v)))
    case DefaultKw => Success(a.(defaultValue := Some(v)))
    case ContentEncodingKw => var s :- ReadString(v); Success(a.(contentEncoding := Some(s)))
    case ContentMediaTypeKw => var s :- ReadString(v); Success(a.(contentMediaType := Some(s)))
    case DescriptionKw => var s :- ReadString(v); Success(a.(description := Some(s)))
    case FormatKw => var s :- ReadString(v); Success(a.(format := Some(s)))
    case PatternKw => var s :- ReadString(v); Success(a.(pattern := Some(s)))
    case IdKw => var s :- ReadString(v); Success(a.(id := Some(ParseRelativeOrAbsolute(s))))
    case RefKw => var s :- ReadString(v); Success(a.(reference := Some(ParseRelativeOrAbsolute(s))))
    case DisallowKw => Failure(NotImplemented)
    case PropertyNamesKw => Failure(NotImplemented)
    case DivisibleByKw => var n :- ReadNumber(v); Success(a.(multipleOf := Some(n)))
    case MultipleOfKw => var n :- ReadNumber(v); Success(a.(multipleOf := Some(n)))
    case MaximumKw => var n :- ReadNumber(v); Success(a.(maximum := Some(n)))
    case MinimumKw => var n :- ReadNumber(v); Success(a.(minimum := Some(n)))
    case ExclusiveMaximumKw =>
      (match v
       case Bool(b) => Success(a.(exclusiveMaximum := b))
       case Num(n) => Success(a.(maximum := Some(n), exclusiveMaximum := true))
       case _ => Failure(Malformed))
    case ExclusiveMinimumKw =>
      (match v
       case Bool(b) => Success(a.(exclusiveMinimum := b))
       case Num(n) => Success(a.(minimum := Some(n), exclusiveMinimum := true))
       case _ => Failure(Malformed))
    case MaximumItemsKw => var i :- ReadInt64(v); Success(a.(maximumItems := Some(i)))
    case MaximumLengthKw => var i :- ReadInt64(v); Success(a.(maximumLength := Some(i)))
    case MaximumPropertiesKw => var i :- ReadInt64(v); Success(a.(maximumProperties := Some(i)))
    case MinimumItemsKw => var i :- ReadInt64(v); Success(a.(minimumItems := Some(i)))
    case MinimumLengthKw => var i :- ReadInt64(v); Success(a.(minimumLength := Some(i)))
    case MinimumPropertiesKw => var i :- ReadInt64(v); Success(a.(minimumProperties := Some(i)))
    case ReadOnlyKw => var b :- ReadNullableBool(v); Success(a.(readOnly := b))
    case ValidKw => var b :- ReadNullableBool(v); Success(a.(valid := b))
    case WriteOnlyKw => var b :- ReadNullableBool(v); Success(a.(writeOnly := b))
    case UniqueItemsKw => if v.Bool? then Success(a.(uniqueItems := v.b)) else Failure(Malformed)
    case TitleKw =>
      (match v
       case Null => Success(a.(title := None))
       case Str(s) => Success(a.(title := Some(s)))
       case _ => Failure(Malformed))
    case SchemaKw =>
      (match v
       case Null => Success(a.(schemaVersion := None))
       case Str(s) => (match ParseAbsolute(s)
                       case Some(u) => Success(a.(schemaVersion := Some(u)))
                       case None => Failure(UriFormat))
       case _ => Failure(Malformed))
    case ExtensionKw => Success(a.(extensionData := a.extensionData[name := v]))
    case _ => assert false; Failure(Malformed)
  }

  /** The value shapes each handler without sub-schemas accepts. */
  predicate PlainAccepts(k: SchemaKeyword, v: Json)
  {
    if k.ConstKw? || k.DefaultKw? || k.ExtensionKw? then true
    else if k.ContentEncodingKw? || k.ContentMediaTypeKw? || k.DescriptionKw? || k.FormatKw? ||
            k.PatternKw? || k.IdKw? || k.RefKw? then v.Str?
    else if k.DivisibleByKw? || k.MultipleOfKw? || k.MaximumKw? || k.MinimumKw? then v.Num?
    else if k.ExclusiveMaximumKw? || k.ExclusiveMinimumKw? then v.Bool? || v.Num?
    else if IsSizeKeyword(k) then v.Num? && InInt64(v.n)
    else if k.ReadOnlyKw? || k.ValidKw? || k.WriteOnlyKw? then v.Bool? || v.Null?
    else if k.UniqueItemsKw? then v.Bool?
    else if k.TitleKw? then v.Null? || v.Str?
    else if k.SchemaKw? then v.Null? || (v.Str? && HasScheme(v.s))
    else false
  }

  /** A handler without sub-schemas succeeds exactly on the shapes it accepts. */
  lemma LoadPlainAccepts(a: Attributes, k: SchemaKeyword, name: string, v: Json)
    requires !IsStructured(k)
    ensures LoadPlain(a, k, name, v).Success? <==> PlainAccepts(k, v)
  {
  }

  /**
   * The error of a refused value: disallow and propertyNames are not
   * implemented, a size keyword given a number it cannot hold is a format
   * error, a relative $schema is a URI format error, and every other refusal
   * is malformed.
   */
  lemma LoadPlainErrors(a: Attributes, k: SchemaKeyword, name: string, v: Json)
    requires !IsStructured(k) && LoadPlain(a, k, name, v).Failure?
    ensures LoadPlain(a, k, name, v).error ==
      (if k.DisallowKw? || k.PropertyNamesKw? then NotImplemented
       else if IsSizeKeyword(k) && v.Num? then Format
       else if k.SchemaKw? && v.Str? then UriFormat
       else Malformed)
  {
  }

  /** divisibleBy is read exactly as multipleOf. */
  lemma DivisibleByIsMultipleOf(a: Attributes, v: Json)
    ensures KeywordOf("divisibleBy") == DivisibleByKw
    ensures LoadPlain(a, DivisibleByKw, "divisibleBy", v) == LoadPlain(a, MultipleOfKw, "multipleOf", v)
  {
  }

  /** An exclusive bound given as a boolean sets only the flag; given as a number it sets the bound and the flag. */
  lemma ExclusiveBounds(a: Attributes, b: bool, n: real)
    ensures LoadPlain(a, ExclusiveMaximumKw, "exclusiveMaximum", Bool(b)) == Success(a.(exclusiveMaximum := b))
    ensures LoadPlain(a, ExclusiveMaximumKw, "exclusiveMaximum", Num(n)) == Success(a.(maximum := Some(n), exclusiveMaximum := true))
    ensures LoadPlain(a, ExclusiveMinimumKw, "exclusiveMinimum", Bool(b)) == Success(a.(exclusiveMinimum := b))
    ensures LoadPlain(a, ExclusiveMinimumKw, "exclusiveMinimum", Num(n)) == Success(a.(minimum := Some(n), exclusiveMinimum := true))
  {
  }

  /** An unrecognised member is stored unchanged in the extension data, under its own name. */
  lemma ExtensionDataKeepsValue(a: Attributes, name: string, v: Json)
    requires KeywordOf(name) == ExtensionKw
    ensures LoadPlain(a, ExtensionKw, name, v) == Success(a.(extensionData := a.extensionData[name := v]))
  {
  }
}
