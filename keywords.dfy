/**
 * The keyword checks of the validating expression builder. Each check says
 * what the code emitted for one keyword of a node computes on a value, or
 * None when the keyword contributes no code. A check is generic in the kind
 * of sub-schema link R and takes the meaning of a link as the function sub.
 */
module Keywords {
  import opened Wrappers
  import opened JsonValues
  import opened SchemaTypes
  import opened Uris
  import opened Schemas
  import opened Outcomes

  /**
   * The library services the emitted code calls: regular-expression matching
   * (None when the engine refuses the pattern), the length of a string in text
   * elements, deep equality of values, and the two multiple-of tests.
   */
  datatype Env = Env(
    matches: (string, string) -> Option<bool>,
    textLength: string -> nat,
    deepEquals: (Json, Json) -> bool,
    integerMultiple: (int, real) -> bool,
    doubleMultiple: (real, real) -> bool)

  /** The draft-03 and draft-04 meta-schema URIs, without their empty fragment. */
  const Draft3: string := "http://json-schema.org/draft-03/schema"
  const Draft4: string := "http://json-schema.org/draft-04/schema"

  predicate IsDraft3Or4(version: Option<Uri>)
  {
    version.Some? && version.value.isAbsolute &&
    (WithoutFragment(version.value.original) == Draft3 || WithoutFragment(version.value.original) == Draft4)
  }

  /** The type bits a value of the given kind covers; a number covers both Integer and Number. */
  function SchemaTypeForTokenType(k: Kind): (t: TypeSet)
    ensures t != NoneType && t & AllTypes == t
    ensures k == NumberKind <==> t == IntegerType | NumberType
    ensures k != NumberKind ==> IsSingleBit(t) && t & (IntegerType | NumberType) == 0
    ensures t & IntegerType != 0 <==> k == NumberKind
  {
    match k
    case ArrayKind => ArrayType
    case TrueKind => BooleanType
    case FalseKind => BooleanType
    case NumberKind => IntegerType | NumberType
    case NullKind => NullType
    case ObjectKind => ObjectType
    case StringKind => StringType
  }

  /** Whether a value belongs to a type set, for a node of the given schema version. */
  function IsSchemaTypeFunc(version: Option<Uri>, v: Json, t: TypeSet): bool
  {
    if IsDraft3Or4(version) && v.Num? && t & IntegerType != 0 && IsWhole(v.n) then false
    else if v.Num? && t & IntegerType != 0 && IsWhole(v.n) then true
    else t & SchemaTypeForTokenType(KindOf(v)) != 0
  }

  function IsNumberKind(v: Json): Outcome { FromBool(v.Num?) }

  function Apply<R>(rs: seq<R>, v: Json, sub: (R, Json) -> Outcome): (os: seq<Outcome>)
    ensures |os| == |rs| && forall i :: 0 <= i < |rs| ==> os[i] == sub(rs[i], v)
  {
    seq(|rs|, i requires 0 <= i < |rs| => sub(rs[i], v))
  }

  /** One schema applied to every element of a sequence of values. */
  function Each<R>(r: R, vs: seq<Json>, sub: (R, Json) -> Outcome): (os: seq<Outcome>)
    ensures |os| == |vs| && forall i :: 0 <= i < |vs| ==> os[i] == sub(r, vs[i])
  {
    seq(|vs|, i requires 0 <= i < |vs| => sub(r, vs[i]))
  }

  function AllOfKeyword<R>(s: Schema<R>, v: Json, sub: (R, Json) -> Outcome): (r: Option<Outcome>)
    ensures r.Some? <==> |s.subs.allOf| > 0
  {
    if |s.subs.allOf| == 0 then None else Some(AndAll(Apply(s.subs.allOf, v, sub)))
  }

  function AnyOfKeyword<R>(s: Schema<R>, v: Json, sub: (R, Json) -> Outcome): (r: Option<Outcome>)
    ensures r.Some? <==> |s.subs.anyOf| > 0
  {
    if |s.subs.anyOf| == 0 then None else Some(OrAll(Apply(s.subs.anyOf, v, sub)))
  }

  function ConstKeyword<R>(s: Schema<R>, v: Json, env: Env): (r: Option<Outcome>)
    ensures r.Some? <==> s.attrs.constValue.Some?
    ensures r.Some? ==> (r.value == Accept <==> env.deepEquals(s.attrs.constValue.value, v))
    ensures r.Some? ==> Definite(r.value)
  {
    if s.attrs.constValue.None? then None else Some(FromBool(env.deepEquals(s.attrs.constValue.value, v)))
  }

  /** The outcomes of the contains schema on each element, which the emitted loop scans. */
  function ContainsKeyword<R>(s: Schema<R>, v: Json, sub: (R, Json) -> Outcome): (r: Option<Outcome>)
    ensures r.Some? <==> s.subs.contains.Some?
    ensures r.Some? && !v.Arr? ==> r.value == Accept
  {
    if s.subs.contains.None? then None
    else if v.Arr? then Some(OrAll(Each(s.subs.contains.value, v.items, sub)))
    else Some(Accept)
  }

  /** The membership test of each name, in order. */
  function MemberTests(members: seq<(string, Json)>, names: seq<string>): (os: seq<Outcome>)
    ensures |os| == |names| && forall i :: 0 <= i < |names| ==> os[i] == FromBool(HasMember(members, names[i]))
    ensures AllDefinite(os)
  {
    seq(|names|, i requires 0 <= i < |names| => FromBool(HasMember(members, names[i])))
  }

  /** The deep-equality test of each value against v, in order. */
  function EqualityTests(es: seq<Json>, v: Json, env: Env): (os: seq<Outcome>)
    ensures |os| == |es| && forall i :: 0 <= i < |es| ==> os[i] == FromBool(env.deepEquals(es[i], v))
    ensures AllDefinite(os)
  {
    seq(|es|, i requires 0 <= i < |es| => FromBool(env.deepEquals(es[i], v)))
  }

  function DependencyValue<R>(d: DepValue<R>, v: Json, sub: (R, Json) -> Outcome): Outcome
    requires v.Obj?
  {
    match d
    case Names(names) => AndAll(MemberTests(v.members, names))
    case SchemaDep(r) => sub(r, v)
    // The source throws here while it builds the expression, before any
    // instance is seen; Compiler.Build reports the same fault as a build failure.
    case OtherValue => Raise(NotSupported)
  }

  function DependencyItem<R>(entry: (string, DepValue<R>), v: Json, sub: (R, Json) -> Outcome): Outcome
    requires v.Obj?
  {
    IfThenElseTrue(FromBool(HasMember(v.members, entry.0)), DependencyValue(entry.1, v, sub))
  }

  function DependenciesKeyword<R>(s: Schema<R>, v: Json, sub: (R, Json) -> Outcome): (r: Option<Outcome>)
    ensures r.Some? <==> |s.subs.dependencies| > 0
    ensures r.Some? && !v.Obj? ==> r.value == Accept
  {
    var deps := s.subs.dependencies;
    if |deps| == 0 then None
    else if v.Obj? then Some(AndAll(DependencyItems(deps, v, sub)))
    else Some(Accept)
  }

  function DependencyItems<R>(deps: seq<(string, DepValue<R>)>, v: Json, sub: (R, Json) -> Outcome): (os: seq<Outcome>)
    requires v.Obj?
    ensures |os| == |deps| && forall i :: 0 <= i < |deps| ==> os[i] == DependencyItem(deps[i], v, sub)
  {
    seq(|deps|, i requires 0 <= i < |deps| => DependencyItem(deps[i], v, sub))
  }

  function EnumKeyword<R>(s: Schema<R>, v: Json, env: Env): (r: Option<Outcome>)
    ensures r.Some? <==> |s.attrs.enumValues| > 0
  {
    var es := s.attrs.enumValues;
    if |es| == 0 then None
    else Some(OrAll(EqualityTests(es, v, env)))
  }

  /** Reading the length of a value as an array: any other value raises. */
  function ArrayLengthAtMost(v: Json, bound: int): (o: Outcome)
    ensures v.Arr? ==> o == FromBool(|v.items| <= bound)
    ensures !v.Arr? ==> o == Raise(InvalidOperation)
  {
    if v.Arr? then FromBool(|v.items| <= bound) else Raise(InvalidOperation)
  }

  /** One positional item check: indices beyond the array pass. */
  function TupleItem<R>(v: Json, j: nat, r: R, sub: (R, Json) -> Outcome): Outcome
  {
    if !v.Arr? then Raise(InvalidOperation)
    else if |v.items| <= j then Accept
    else sub(r, v.items[j])
  }

  function TupleItems<R>(v: Json, items: seq<R>, sub: (R, Json) -> Outcome): (os: seq<Outcome>)
    ensures |os| == |items| && forall j :: 0 <= j < |items| ==> os[j] == TupleItem(v, j, items[j], sub)
  {
    seq(|items|, j requires 0 <= j < |items| => TupleItem(v, j, items[j], sub))
  }

  /** The outcomes of a schema applied to the elements of an array from an offset on. */
  function CompareLocalSpec<R>(els: seq<Json>, off: nat, r: R, sub: (R, Json) -> Outcome): Outcome
  {
    if off <= |els| then AndAll(Each(r, els[off..], sub)) else Accept
  }

  function CompareLocalOn<R>(v: Json, off: nat, r: R, sub: (R, Json) -> Outcome): Outcome
  {
    if v.Arr? then CompareLocalSpec(v.items, off, r, sub) else Raise(InvalidOperation)
  }

  /** Single-schema mode: the one item schema applies to every element of an array. */
  predicate SingleItemMode<R>(s: Schema<R>)
  {
    !s.attrs.itemsPositionValidation && |s.subs.items| > 0
  }

  function ItemsKeyword<R>(s: Schema<R>, v: Json, sub: (R, Json) -> Outcome): (r: Option<Outcome>)
    ensures r.Some? <==> s.attrs.itemsPositionValidation || |s.subs.items| > 0
    ensures SingleItemMode(s) && !v.Arr? ==> r == Some(Accept)
  {
    var items := s.subs.items;
    if SingleItemMode(s) then
      Some(if v.Arr? then CompareLocalSpec(v.items, 0, items[0], sub) else Accept)
    else if s.attrs.itemsPositionValidation then
      var cmp := AndAll(TupleItems(v, items, sub));
      if !s.attrs.allowAdditionalItems then
        Some(And(ArrayLengthAtMost(v, |items|), cmp))
      else if s.subs.additionalItems.Some? then
        Some(And(cmp, CompareLocalOn(v, |items|, s.subs.additionalItems.value, sub)))
      else
        Some(cmp)
    else None
  }

  /** A bound on a number, compared after reading it as an integer or as a floating-point value. */
  function MaximumKeyword<R>(s: Schema<R>, v: Json): (r: Option<Outcome>)
    ensures r.Some? <==> s.attrs.maximum.Some?
    ensures r.Some? && v.Num? ==>
      (r.value == Accept <==> if s.attrs.exclusiveMaximum then v.n < s.attrs.maximum.value else v.n <= s.attrs.maximum.value)
    ensures r.Some? ==> Definite(r.value) && (!v.Num? ==> r.value == Accept)
  {
    if s.attrs.maximum.None? then None
    else if !v.Num? then Some(Accept)
    else if s.attrs.exclusiveMaximum then Some(FromBool(v.n < s.attrs.maximum.value))
    else Some(FromBool(v.n <= s.attrs.maximum.value))
  }

  function MinimumKeyword<R>(s: Schema<R>, v: Json): (r: Option<Outcome>)
    ensures r.Some? <==> s.attrs.minimum.Some?
    ensures r.Some? && v.Num? ==>
      (r.value == Accept <==> if s.attrs.exclusiveMinimum then v.n > s.attrs.minimum.value else v.n >= s.attrs.minimum.value)
    ensures r.Some? ==> Definite(r.value) && (!v.Num? ==> r.value == Accept)
  {
    if s.attrs.minimum.None? then None
    else if !v.Num? then Some(Accept)
    else if s.attrs.exclusiveMinimum then Some(FromBool(v.n > s.attrs.minimum.value))
    else Some(FromBool(v.n >= s.attrs.minimum.value))
  }

  function MaximumItemsKeyword<R>(s: Schema<R>, v: Json): (r: Option<Outcome>)
    ensures r.Some? <==> s.attrs.maximumItems.Some?
    ensures r.Some? ==> (r.value == Accept <==> !v.Arr? || |v.items| <= s.attrs.maximumItems.value)
    ensures r.Some? ==> Definite(r.value)
  {
    if s.attrs.maximumItems.None? then None
    else Some(if v.Arr? then FromBool(|v.items| <= s.attrs.maximumItems.value) else Accept)
  }

  function MinimumItemsKeyword<R>(s: Schema<R>, v: Json): (r: Option<Outcome>)
    ensures r.Some? <==> s.attrs.minimumItems.Some?
    ensures r.Some? ==> (r.value == Accept <==> !v.Arr? || |v.items| >= s.attrs.minimumItems.value)
    ensures r.Some? ==> Definite(r.value)
  {
    if s.attrs.minimumItems.None? then None
    else Some(if v.Arr? then FromBool(|v.items| >= s.attrs.minimumItems.value) else Accept)
  }

  /**
   * The length checks measure strings in text elements. They are the checks
   * the builders intend: building them throws (the value is converted to a
   * string), and the compiler fails on a node that sets them.
   */
  function MaximumLengthKeyword<R>(s: Schema<R>, v: Json, env: Env): (r: Option<Outcome>)
    ensures r.Some? <==> s.attrs.maximumLength.Some?
    ensures r.Some? ==> (r.value == Accept <==> !v.Str? || env.textLength(v.s) <= s.attrs.maximumLength.value)
    ensures r.Some? ==> Definite(r.value)
  {
    if s.attrs.maximumLength.None? then None
    else Some(if v.Str? then FromBool(env.textLength(v.s) <= s.attrs.maximumLength.value) else Accept)
  }

  function MinimumLengthKeyword<R>(s: Schema<R>, v: Json, env: Env): (r: Option<Outcome>)
    ensures r.Some? <==> s.attrs.minimumLength.Some?
    ensures r.Some? ==> (r.value == Accept <==> !v.Str? || env.textLength(v.s) >= s.attrs.minimumLength.value)
    ensures r.Some? ==> Definite(r.value)
  {
    if s.attrs.minimumLength.None? then None
    else Some(if v.Str? then FromBool(env.textLength(v.s) >= s.attrs.minimumLength.value) else Accept)
  }

  /**
   * The property-count checks count the members an object enumerates,
   * duplicate names included. They are the checks the builders intend:
   * building them throws (an int count is compared with a long bound), and
   * the compiler fails on a node that sets them.
   */
  function MaximumPropertiesKeyword<R>(s: Schema<R>, v: Json): (r: Option<Outcome>)
    ensures r.Some? <==> s.attrs.maximumProperties.Some?
    ensures r.Some? ==> (r.value == Accept <==> !v.Obj? || |v.members| <= s.attrs.maximumProperties.value)
    ensures r.Some? ==> Definite(r.value)
  {
    if s.attrs.maximumProperties.None? then None
    else Some(if v.Obj? then FromBool(|v.members| <= s.attrs.maximumProperties.value) else Accept)
  }

  function MinimumPropertiesKeyword<R>(s: Schema<R>, v: Json): (r: Option<Outcome>)
    ensures r.Some? <==> s.attrs.minimumProperties.Some?
    ensures r.Some? ==> (r.value == Accept <==> !v.Obj? || |v.members| >= s.attrs.minimumProperties.value)
    ensures r.Some? ==> Definite(r.value)
  {
    if s.attrs.minimumProperties.None? then None
    else Some(if v.Obj? then FromBool(|v.members| >= s.attrs.minimumProperties.value) else Accept)
  }

  /**
   * The multiple-of test: an integer test for numbers a 64-bit integer holds,
   * a floating-point test otherwise. The source asks whether the number's
   * text reads as a 64-bit integer, so a whole number written with a
   * fraction or an exponent ("1.0", "1e2") takes the floating-point test
   * there; the model has no number text and decides by value.
   */
  function MultipleOfValue(v: Json, m: real, env: Env): Outcome
  {
    if !v.Num? then Raise(InvalidOperation)
    else if InInt64(v.n) then FromBool(env.integerMultiple(v.n.Floor, m))
    else FromBool(env.doubleMultiple(v.n, m))
  }

  function MultipleOfKeyword<R>(s: Schema<R>, v: Json, env: Env): (r: Option<Outcome>)
    ensures r.Some? <==> s.attrs.multipleOf.Some?
  {
    if s.attrs.multipleOf.None? then None
    else Some(IfThenElseTrue(FromBool(IsSchemaTypeFunc(s.attrs.schemaVersion, v, IntegerType | NumberType)),
                             MultipleOfValue(v, s.attrs.multipleOf.value, env)))
  }

  function NotKeyword<R>(s: Schema<R>, v: Json, sub: (R, Json) -> Outcome): (r: Option<Outcome>)
    ensures r.Some? <==> s.subs.notSchema.Some?
  {
    if s.subs.notSchema.None? then None else Some(Neg(sub(s.subs.notSchema.value, v)))
  }

  /**
   * The pattern test on strings: a pattern the engine refuses counts as no
   * match. It is the check the builder intends: building it throws (the
   * value is converted to a string), and the compiler fails on a node that
   * sets a pattern.
   */
  function PatternKeyword<R>(s: Schema<R>, v: Json, env: Env): (r: Option<Outcome>)
    ensures r.Some? <==> s.attrs.pattern.Some?
    ensures r.Some? ==> (r.value == Accept <==> !v.Str? || env.matches(v.s, s.attrs.pattern.value) == Some(true))
    ensures r.Some? ==> Definite(r.value)
  {
    if s.attrs.pattern.None? then None
    else Some(if v.Str? then FromBool(env.matches(v.s, s.attrs.pattern.value) == Some(true)) else Accept)
  }

  function RequiredKeyword<R>(s: Schema<R>, v: Json): (r: Option<Outcome>)
    ensures r.Some? <==> |s.attrs.required| > 0
    ensures r.Some? && !v.Obj? ==> r.value == Accept
  {
    var names := s.attrs.required;
    if |names| == 0 then None
    else if v.Obj? then Some(AndAll(MemberTests(v.members, names)))
    else Some(Accept)
  }

  function TypeKeyword<R>(s: Schema<R>, v: Json): (r: Option<Outcome>)
    ensures r.Some? <==> s.attrs.schemaType.Some?
    ensures r.Some? ==> Definite(r.value)
  {
    if s.attrs.schemaType.None? then None
    else Some(FromBool(IsSchemaTypeFunc(s.attrs.schemaVersion, v, s.attrs.schemaType.value)))
  }

  /** Two positions of an array hold deep-equal elements. */
  predicate HasEqualPair(a: seq<Json>, env: Env)
  {
    exists i, j :: 0 <= i < j < |a| && env.deepEquals(a[i], a[j])
  }

  function UniqueItemsKeyword<R>(s: Schema<R>, v: Json, env: Env): (r: Option<Outcome>)
    ensures r.Some? <==> s.attrs.uniqueItems
    ensures r.Some? ==> Definite(r.value)
  {
    if !s.attrs.uniqueItems then None
    else Some(if v.Arr? then FromBool(!HasEqualPair(v.items, env)) else Accept)
  }

  function ValidKeyword<R>(s: Schema<R>): (r: Option<Outcome>)
    ensures r.Some? <==> s.attrs.valid.Some?
    ensures r.Some? ==> r.value == FromBool(s.attrs.valid.value)
  {
    if s.attrs.valid.None? then None else Some(FromBool(s.attrs.valid.value))
  }

  function IfThenElseKeyword<R>(s: Schema<R>, v: Json, sub: (R, Json) -> Outcome): (r: Option<Outcome>)
    ensures r.Some? <==> s.subs.ifSchema.Some?
  {
    if s.subs.ifSchema.None? then None
    else Some(Cond(sub(s.subs.ifSchema.value, v),
                   if s.subs.thenSchema.Some? then sub(s.subs.thenSchema.value, v) else Accept,
                   if s.subs.elseSchema.Some? then sub(s.subs.elseSchema.value, v) else Accept))
  }

  /**
   * The emitted contains loop: elements are tried in order and the first one
   * the schema accepts ends the loop with true; an exhausted array gives false.
   */
  method ContainsLoop<R>(els: seq<Json>, c: R, sub: (R, Json) -> Outcome) returns (o: Outcome)
    ensures o == OrAll(Each(c, els, sub))
  {
    var idx := 0;
    while idx < |els|
      invariant 0 <= idx <= |els|
      invariant forall k :: 0 <= k < idx ==> sub(c, els[k]) == Reject
    {
      var x := sub(c, els[idx]);
      if x != Reject {
        OrAllFirstSuccess(Each(c, els, sub), idx);
        return x;
      }
      idx := idx + 1;
    }
    OrAllRejects(Each(c, els, sub));
    return Reject;
  }

  /**
   * Checking the elements of an array from an offset on against one schema,
   * stopping at the first element it does not accept. Reading the length of
   * a value that is not an array raises.
   */
  method CompareLocal<R>(v: Json, off: nat, c: R, sub: (R, Json) -> Outcome) returns (o: Outcome)
    ensures o == CompareLocalOn(v, off, c, sub)
  {
    if !v.Arr? {
      return Raise(InvalidOperation);
    }
    var els := v.items;
    if off > |els| {
      return Accept;
    }
    var idx := off;
    while idx < |els|
      invariant off <= idx <= |els|
      invariant forall k :: off <= k < idx ==> sub(c, els[k]) == Accept
    {
      var x := sub(c, els[idx]);
      if x != Accept {
        AndAllFirstFailure(Each(c, els[off..], sub), idx - off);
        return x;
      }
      idx := idx + 1;
    }
    AndAllAccepts(Each(c, els[off..], sub));
    return Accept;
  }

  /** The pairwise scan for deep-equal elements, with an early return at the first pair found. */
  method UniqueItems(a: seq<Json>, env: Env) returns (b: bool)
    ensures b <==> !HasEqualPair(a, env)
  {
    for i := 0 to |a|
      invariant forall i', j' :: 0 <= i' < i && i' < j' < |a| ==> !env.deepEquals(a[i'], a[j'])
    {
      for j := i + 1 to |a|
        invariant forall i', j' :: 0 <= i' < i && i' < j' < |a| ==> !env.deepEquals(a[i'], a[j'])
        invariant forall j' :: i < j' < j ==> !env.deepEquals(a[i], a[j'])
      {
        if env.deepEquals(a[i], a[j]) {
          return false;
        }
      }
    }
    return true;
  }

  /** A non-empty allOf of definite alternatives holds iff every alternative accepts. */
  lemma AllOfHolds<R>(s: Schema<R>, v: Json, sub: (R, Json) -> Outcome)
    requires |s.subs.allOf| > 0 && AllDefinite(Apply(s.subs.allOf, v, sub))
    ensures AllOfKeyword(s, v, sub) == Some(FromBool(forall i :: 0 <= i < |s.subs.allOf| ==> sub(s.subs.allOf[i], v) == Accept))
  {
    AndAllDefinite(Apply(s.subs.allOf, v, sub));
  }

  /** A non-empty anyOf of definite alternatives holds iff some alternative accepts; an empty one contributes nothing. */
  lemma AnyOfHolds<R>(s: Schema<R>, v: Json, sub: (R, Json) -> Outcome)
    requires AllDefinite(Apply(s.subs.anyOf, v, sub))
    ensures |s.subs.anyOf| == 0 ==> AnyOfKeyword(s, v, sub) == None
    ensures |s.subs.anyOf| > 0 ==>
      AnyOfKeyword(s, v, sub) == Some(FromBool(exists i :: 0 <= i < |s.subs.anyOf| && sub(s.subs.anyOf[i], v) == Accept))
  {
    OrAllDefinite(Apply(s.subs.anyOf, v, sub));
  }

  /** A non-empty enum holds iff some listed value deep-equals the value. */
  lemma EnumHolds<R>(s: Schema<R>, v: Json, env: Env)
    requires |s.attrs.enumValues| > 0
    ensures EnumKeyword(s, v, env) == Some(FromBool(exists i :: 0 <= i < |s.attrs.enumValues| && env.deepEquals(s.attrs.enumValues[i], v)))
  {
    OrAllDefinite(EqualityTests(s.attrs.enumValues, v, env));
  }

  /** On an array, contains holds iff some element satisfies the schema; an empty array fails. */
  lemma ContainsHolds<R>(s: Schema<R>, v: Json, sub: (R, Json) -> Outcome)
    requires s.subs.contains.Some? && v.Arr?
    requires AllDefinite(Each(s.subs.contains.value, v.items, sub))
    ensures ContainsKeyword(s, v, sub) ==
      Some(FromBool(exists i :: 0 <= i < |v.items| && sub(s.subs.contains.value, v.items[i]) == Accept))
    ensures |v.items| == 0 ==> ContainsKeyword(s, v, sub) == Some(Reject)
  {
    OrAllDefinite(Each(s.subs.contains.value, v.items, sub));
  }

  /** A dependency whose trigger member is absent passes; a present one requires its names or its schema. */
  lemma DependencyItemHolds<R>(entry: (string, DepValue<R>), v: Json, sub: (R, Json) -> Outcome)
    requires v.Obj?
    ensures !HasMember(v.members, entry.0) ==> DependencyItem(entry, v, sub) == Accept
    ensures HasMember(v.members, entry.0) && entry.1.Names? ==>
      DependencyItem(entry, v, sub) == FromBool(forall i :: 0 <= i < |entry.1.names| ==> HasMember(v.members, entry.1.names[i]))
    ensures HasMember(v.members, entry.0) && entry.1.SchemaDep? ==>
      DependencyItem(entry, v, sub) == sub(entry.1.schema, v)
    ensures HasMember(v.members, entry.0) && entry.1.OtherValue? ==>
      DependencyItem(entry, v, sub) == Raise(NotSupported)
  {
    if entry.1.Names? {
      AndAllDefinite(MemberTests(v.members, entry.1.names));
    }
  }

  /** On an object with definite dependencies, the keyword holds iff every dependency item holds. */
  lemma DependenciesHold<R>(s: Schema<R>, v: Json, sub: (R, Json) -> Outcome)
    requires |s.subs.dependencies| > 0 && v.Obj?
    requires forall i :: 0 <= i < |s.subs.dependencies| ==> Definite(DependencyItem(s.subs.dependencies[i], v, sub))
    ensures DependenciesKeyword(s, v, sub) ==
      Some(FromBool(forall i :: 0 <= i < |s.subs.dependencies| ==> DependencyItem(s.subs.dependencies[i], v, sub) == Accept))
  {
    AndAllDefinite(DependencyItems(s.subs.dependencies, v, sub));
  }

  /** Single-schema items: every element of an array must satisfy the first item schema. */
  lemma SingleItemsHold<R>(s: Schema<R>, v: Json, sub: (R, Json) -> Outcome)
    requires SingleItemMode(s) && v.Arr?
    requires AllDefinite(Each(s.subs.items[0], v.items, sub))
    ensures ItemsKeyword(s, v, sub) ==
      Some(FromBool(forall i :: 0 <= i < |v.items| ==> sub(s.subs.items[0], v.items[i]) == Accept))
  {
    assert v.items[0..] == v.items;
    AndAllDefinite(Each(s.subs.items[0], v.items, sub));
  }

  predicate TupleDefinite<R>(s: Schema<R>, els: seq<Json>, sub: (R, Json) -> Outcome)
  {
    (forall j :: 0 <= j < |s.subs.items| && j < |els| ==> Definite(sub(s.subs.items[j], els[j]))) &&
    (s.subs.additionalItems.Some? ==>
      forall j :: |s.subs.items| <= j < |els| ==> Definite(sub(s.subs.additionalItems.value, els[j])))
  }

  /**
   * Tuple-mode items on an array: each position that exists must satisfy its
   * schema; without additional items the array may not be longer than the
   * schema list; an additional-items schema must hold for every later position.
   */
  lemma TupleItemsHold<R>(s: Schema<R>, v: Json, sub: (R, Json) -> Outcome)
    requires s.attrs.itemsPositionValidation && v.Arr?
    requires TupleDefinite(s, v.items, sub)
    ensures ItemsKeyword(s, v, sub) == Some(FromBool(
      (forall j :: 0 <= j < |s.subs.items| && j < |v.items| ==> sub(s.subs.items[j], v.items[j]) == Accept) &&
      (!s.attrs.allowAdditionalItems ==> |v.items| <= |s.subs.items|) &&
      (s.attrs.allowAdditionalItems && s.subs.additionalItems.Some? ==>
        forall j :: |s.subs.items| <= j < |v.items| ==> sub(s.subs.additionalItems.value, v.items[j]) == Accept)))
  {
    var items := s.subs.items;
    var cmps := TupleItems(v, items, sub);
    assert AllDefinite(cmps);
    AndAllDefinite(cmps);
    assert AndAll(cmps) == Accept <==> forall j :: 0 <= j < |items| && j < |v.items| ==> sub(items[j], v.items[j]) == Accept by {
      if AndAll(cmps) == Accept {
        forall j | 0 <= j < |items| && j < |v.items|
          ensures sub(items[j], v.items[j]) == Accept
        {
          assert cmps[j] == Accept;
        }
      }
    }
    if s.attrs.allowAdditionalItems && s.subs.additionalItems.Some? {
      var a := s.subs.additionalItems.value;
      if |items| <= |v.items| {
        var rest := Each(a, v.items[|items|..], sub);
        assert AllDefinite(rest) by {
          forall k | 0 <= k < |rest| ensures Definite(rest[k]) {
            assert rest[k] == sub(a, v.items[|items| + k]);
          }
        }
        AndAllDefinite(rest);
        assert AndAll(rest) == Accept <==> forall j :: |items| <= j < |v.items| ==> sub(a, v.items[j]) == Accept by {
          if AndAll(rest) == Accept {
            forall j | |items| <= j < |v.items| ensures sub(a, v.items[j]) == Accept {
              assert rest[j - |items|] == sub(a, v.items[j]);
            }
          }
        }
      }
    }
  }

  /** Tuple-mode items has no array-kind guard: on any other value it raises, unless it has nothing to check. */
  lemma TupleItemsUnguarded<R>(s: Schema<R>, v: Json, sub: (R, Json) -> Outcome)
    requires s.attrs.itemsPositionValidation && !v.Arr?
    ensures |s.subs.items| > 0 || !s.attrs.allowAdditionalItems || s.subs.additionalItems.Some? ==>
      ItemsKeyword(s, v, sub) == Some(Raise(InvalidOperation))
    ensures |s.subs.items| == 0 && s.attrs.allowAdditionalItems && s.subs.additionalItems.None? ==>
      ItemsKeyword(s, v, sub) == Some(Accept)
  {
    var items := s.subs.items;
    var cmps := TupleItems(v, items, sub);
    if |items| > 0 {
      AndAllFirstFailure(cmps, 0);
    }
  }

  /** not negates a definite outcome of its schema. */
  lemma NotNegates<R>(s: Schema<R>, v: Json, sub: (R, Json) -> Outcome)
    requires s.subs.notSchema.Some? && Definite(sub(s.subs.notSchema.value, v))
    ensures NotKeyword(s, v, sub) == Some(FromBool(sub(s.subs.notSchema.value, v) == Reject))
  {
  }

  /** On an object, required holds iff every listed name is a member. */
  lemma RequiredHolds<R>(s: Schema<R>, v: Json)
    requires |s.attrs.required| > 0 && v.Obj?
    ensures RequiredKeyword(s, v) == Some(FromBool(forall i :: 0 <= i < |s.attrs.required| ==> HasMember(v.members, s.attrs.required[i])))
  {
    AndAllDefinite(MemberTests(v.members, s.attrs.required));
  }

  /** An array of at most one element never has an equal pair, so it is unique. */
  lemma ShortArraysAreUnique<R>(s: Schema<R>, v: Json, env: Env)
    requires s.attrs.uniqueItems && v.Arr? && |v.items| <= 1
    ensures UniqueItemsKeyword(s, v, env) == Some(Accept)
  {
  }

  /** uniqueItems rejects an array iff two positions hold deep-equal elements. */
  lemma UniqueItemsHolds<R>(s: Schema<R>, v: Json, env: Env)
    requires s.attrs.uniqueItems && v.Arr?
    ensures UniqueItemsKeyword(s, v, env) == Some(Reject) <==>
      exists i, j :: 0 <= i < j < |v.items| && env.deepEquals(v.items[i], v.items[j])
  {
  }

  /**
   * if/then/else: an accepting if-schema selects the then-schema, a rejecting
   * one the else-schema, and an absent branch is the constant true.
   */
  lemma IfThenElseSelects<R>(s: Schema<R>, v: Json, sub: (R, Json) -> Outcome)
    requires s.subs.ifSchema.Some?
    ensures sub(s.subs.ifSchema.value, v) == Accept ==>
      IfThenElseKeyword(s, v, sub) == Some(if s.subs.thenSchema.Some? then sub(s.subs.thenSchema.value, v) else Accept)
    ensures sub(s.subs.ifSchema.value, v) == Reject ==>
      IfThenElseKeyword(s, v, sub) == Some(if s.subs.elseSchema.Some? then sub(s.subs.elseSchema.value, v) else Accept)
  {
  }

  /**
   * The type test: draft-3/4 whole numbers fail any set with Integer; any
   * other number passes a set with Integer or Number; any other value passes
   * iff its kind bit is in the set; the empty set rejects everything.
   */
  lemma TypeTestCases(version: Option<Uri>, v: Json, t: TypeSet)
    ensures IsDraft3Or4(version) && v.Num? && IsWhole(v.n) && t & IntegerType != 0 ==> !IsSchemaTypeFunc(version, v, t)
    ensures v.Num? && t & (IntegerType | NumberType) != 0 && !(IsDraft3Or4(version) && IsWhole(v.n) && t & IntegerType != 0) ==>
      IsSchemaTypeFunc(version, v, t)
    ensures v.Num? && t & (IntegerType | NumberType) == 0 ==> !IsSchemaTypeFunc(version, v, t)
    ensures !v.Num? ==> (IsSchemaTypeFunc(version, v, t) <==> t & SchemaTypeForTokenType(KindOf(v)) != 0)
    ensures t == NoneType ==> !IsSchemaTypeFunc(version, v, t)
  {
  }

  /**
   * multipleOf: values that are not numbers pass, and so do whole numbers on
   * a draft-3/4 node, whose type test for Integer fails.
   */
  lemma MultipleOfSkips<R>(s: Schema<R>, v: Json, env: Env)
    requires s.attrs.multipleOf.Some?
    ensures !v.Num? ==> MultipleOfKeyword(s, v, env) == Some(Accept)
    ensures v.Num? && IsDraft3Or4(s.attrs.schemaVersion) && IsWhole(v.n) ==> MultipleOfKeyword(s, v, env) == Some(Accept)
    ensures v.Num? && !(IsDraft3Or4(s.attrs.schemaVersion) && IsWhole(v.n)) ==>
      MultipleOfKeyword(s, v, env) == Some(MultipleOfValue(v, s.attrs.multipleOf.value, env))
  {
    TypeTestCases(s.attrs.schemaVersion, v, IntegerType | NumberType);
  }
}
