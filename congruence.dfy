/**
 * Two nodes that agree on everything but their sub-schema references, whose
 * references are related wherever the body consults them, have the same
 * body outcome once the references are evaluated alike. This is what lets
 * a compiled body (references replaced by code) stand for its arena node.
 */
module Congruence {
  import opened Wrappers
  import opened JsonValues
  import opened Schemas
  import opened Outcomes
  import opened Keywords
  import opened PropertyKeywords
  import opened Validation

  /** Same length; related pairwise when the list is consulted. */
  ghost predicate ListRel<A(!new), B(!new)>(xs: seq<A>, ys: seq<B>, rel: (A, B) -> bool, used: bool)
  {
    |xs| == |ys| && (used ==> forall i :: 0 <= i < |xs| ==> rel(xs[i], ys[i]))
  }

  /** Same presence; related when present and consulted. */
  ghost predicate OptRel<A(!new), B(!new)>(x: Option<A>, y: Option<B>, rel: (A, B) -> bool, used: bool)
  {
    x.Some? == y.Some? && (used && x.Some? ==> rel(x.value, y.value))
  }

  /** Same keys in the same order; values related when consulted. */
  ghost predicate EntriesRel<A(!new), B(!new)>(xs: seq<(string, A)>, ys: seq<(string, B)>, rel: (A, B) -> bool, used: bool)
  {
    |xs| == |ys| && forall i :: 0 <= i < |xs| ==> xs[i].0 == ys[i].0 && (used ==> rel(xs[i].1, ys[i].1))
  }

  ghost predicate DepRel<A(!new), B(!new)>(x: DepValue<A>, y: DepValue<B>, rel: (A, B) -> bool)
  {
    match x
    case Names(ns) => y.Names? && y.names == ns
    case SchemaDep(a) => y.SchemaDep? && rel(a, y.schema)
    case OtherValue => y.OtherValue?
  }

  ghost predicate DepsRel<A(!new), B(!new)>(xs: seq<(string, DepValue<A>)>, ys: seq<(string, DepValue<B>)>, rel: (A, B) -> bool)
  {
    |xs| == |ys| && forall i :: 0 <= i < |xs| ==> xs[i].0 == ys[i].0 && DepRel(xs[i].1, ys[i].1, rel)
  }

  /** The references of the keyword builders: related wherever the keywords consult them. */
  ghost predicate KeywordLinks<A(!new), B(!new)>(bs: Subschemas<A>, ns: Subschemas<B>, a: Attributes, rel: (A, B) -> bool)
  {
    ListRel(bs.allOf, ns.allOf, rel, true) &&
    ListRel(bs.anyOf, ns.anyOf, rel, true) &&
    OptRel(bs.notSchema, ns.notSchema, rel, true) &&
    OptRel(bs.contains, ns.contains, rel, true) &&
    OptRel(bs.ifSchema, ns.ifSchema, rel, true) &&
    OptRel(bs.thenSchema, ns.thenSchema, rel, ns.ifSchema.Some?) &&
    OptRel(bs.elseSchema, ns.elseSchema, rel, ns.ifSchema.Some?) &&
    ListRel(bs.items, ns.items, rel, a.itemsPositionValidation) &&
    (!a.itemsPositionValidation && |ns.items| > 0 ==> rel(bs.items[0], ns.items[0])) &&
    OptRel(bs.additionalItems, ns.additionalItems, rel, a.itemsPositionValidation && a.allowAdditionalItems) &&
    DepsRel(bs.dependencies, ns.dependencies, rel)
  }

  /** The references of the providers: related wherever a listed provider consults them. */
  ghost predicate ProviderLinks<A(!new), B(!new)>(bs: Subschemas<A>, ns: Subschemas<B>, a: Attributes, rel: (A, B) -> bool, providers: seq<Provider>)
  {
    var props := PropertiesProvider in providers;
    ListRel(bs.oneOf, ns.oneOf, rel, OneOfProvider in providers) &&
    EntriesRel(bs.properties, ns.properties, rel, props) &&
    EntriesRel(bs.patternProperties, ns.patternProperties, rel, props) &&
    OptRel(bs.additionalProperties, ns.additionalProperties, rel, props && a.allowAdditionalProperties)
  }

  /**
   * b stands for n: the same attributes and shape, and related references
   * at every position the body consults under the given providers.
   */
  ghost predicate Corresponds<A(!new), B(!new)>(b: Schema<A>, n: Schema<B>, rel: (A, B) -> bool, providers: seq<Provider>)
  {
    b.attrs == n.attrs && KeywordLinks(b.subs, n.subs, n.attrs, rel) && ProviderLinks(b.subs, n.subs, n.attrs, rel, providers)
  }

  /** Two evaluators of references that agree on every related pair. */
  ghost predicate Agree<A(!new), B(!new)>(rel: (A, B) -> bool, subA: (A, Json) -> Outcome, subB: (B, Json) -> Outcome)
  {
    forall x, y, w :: rel(x, y) ==> subA(x, w) == subB(y, w)
  }

  /** A relation contained in another. */
  ghost predicate Within<A(!new), B(!new)>(rel: (A, B) -> bool, rel': (A, B) -> bool)
  {
    forall x, y :: rel(x, y) ==> rel'(x, y)
  }

  /** Correspondence survives enlarging the relation. */
  lemma CorrespondsMono<A(!new), B(!new)>(b: Schema<A>, n: Schema<B>, rel: (A, B) -> bool, rel': (A, B) -> bool, providers: seq<Provider>)
    requires Corresponds(b, n, rel, providers) && Within(rel, rel')
    ensures Corresponds(b, n, rel', providers)
  {
  }

  lemma ApplyCongruent<A(!new), B(!new)>(xs: seq<A>, ys: seq<B>, v: Json, rel: (A, B) -> bool, subA: (A, Json) -> Outcome, subB: (B, Json) -> Outcome)
    requires ListRel(xs, ys, rel, true) && Agree(rel, subA, subB)
    ensures Apply(xs, v, subA) == Apply(ys, v, subB)
  {
    assert forall i :: 0 <= i < |xs| ==> Apply(xs, v, subA)[i] == Apply(ys, v, subB)[i];
  }

  lemma EachCongruent<A(!new), B(!new)>(x: A, y: B, vs: seq<Json>, rel: (A, B) -> bool, subA: (A, Json) -> Outcome, subB: (B, Json) -> Outcome)
    requires rel(x, y) && Agree(rel, subA, subB)
    ensures Each(x, vs, subA) == Each(y, vs, subB)
  {
    assert forall i :: 0 <= i < |vs| ==> Each(x, vs, subA)[i] == Each(y, vs, subB)[i];
  }

  lemma ItemsCongruent<A(!new), B(!new)>(b: Schema<A>, n: Schema<B>, v: Json, rel: (A, B) -> bool, subA: (A, Json) -> Outcome, subB: (B, Json) -> Outcome, providers: seq<Provider>)
    requires Corresponds(b, n, rel, providers) && Agree(rel, subA, subB)
    ensures ItemsKeyword(b, v, subA) == ItemsKeyword(n, v, subB)
  {
    var bs, ns := b.subs, n.subs;
    if SingleItemMode(n) {
      if v.Arr? {
        EachCongruent(bs.items[0], ns.items[0], v.items[0..], rel, subA, subB);
      }
    } else if n.attrs.itemsPositionValidation {
      assert TupleItems(v, bs.items, subA) == TupleItems(v, ns.items, subB) by {
        assert forall j :: 0 <= j < |bs.items| ==> TupleItem(v, j, bs.items[j], subA) == TupleItem(v, j, ns.items[j], subB);
      }
      if n.attrs.allowAdditionalItems && ns.additionalItems.Some? && v.Arr? && |bs.items| <= |v.items| {
        EachCongruent(bs.additionalItems.value, ns.additionalItems.value, v.items[|bs.items|..], rel, subA, subB);
      }
    }
  }

  lemma DependenciesCongruent<A(!new), B(!new)>(b: Schema<A>, n: Schema<B>, v: Json, rel: (A, B) -> bool, subA: (A, Json) -> Outcome, subB: (B, Json) -> Outcome, providers: seq<Provider>)
    requires Corresponds(b, n, rel, providers) && Agree(rel, subA, subB)
    ensures DependenciesKeyword(b, v, subA) == DependenciesKeyword(n, v, subB)
  {
    if v.Obj? {
      var xs, ys := b.subs.dependencies, n.subs.dependencies;
      forall i | 0 <= i < |xs|
        ensures DependencyItem(xs[i], v, subA) == DependencyItem(ys[i], v, subB)
      {
        assert DepRel(xs[i].1, ys[i].1, rel);
      }
      assert DependencyItems(xs, v, subA) == DependencyItems(ys, v, subB);
    }
  }

  lemma PropertiesCongruent<A(!new), B(!new)>(b: Schema<A>, n: Schema<B>, v: Json, rel: (A, B) -> bool, subA: (A, Json) -> Outcome, subB: (B, Json) -> Outcome, env: Env, providers: seq<Provider>)
    requires Corresponds(b, n, rel, providers) && Agree(rel, subA, subB) && PropertiesProvider in providers
    ensures PropertiesProviderOutcome(b, v, subA, env) == PropertiesProviderOutcome(n, v, subB, env)
  {
    var bs, ns := b.subs, n.subs;
    assert Keys(bs.properties) == Keys(ns.properties);
    assert forall name :: MatchOutcomes(name, bs.patternProperties, env) == MatchOutcomes(name, ns.patternProperties, env);
    assert forall name :: Covered(b, name, env) == Covered(n, name, env);
    if v.Obj? {
      var ms := v.members;
      assert PropertyChecks(bs.properties, ms, subA) == PropertyChecks(ns.properties, ms, subB) by {
        assert forall i :: 0 <= i < |bs.properties| ==>
          PropertyCheck(bs.properties[i].0, bs.properties[i].1, ms, subA) == PropertyCheck(ns.properties[i].0, ns.properties[i].1, ms, subB);
      }
      assert PatternPropertyChecks(bs.patternProperties, ms, subA, env) == PatternPropertyChecks(ns.patternProperties, ms, subB, env) by {
        forall i | 0 <= i < |bs.patternProperties|
          ensures PatternMembers(bs.patternProperties[i].0, bs.patternProperties[i].1, ms, subA, env)
               == PatternMembers(ns.patternProperties[i].0, ns.patternProperties[i].1, ms, subB, env)
        {
        }
      }
      assert CoveredAll(b, ms, env) == CoveredAll(n, ms, env);
      if n.attrs.allowAdditionalProperties && ns.additionalProperties.Some? {
        var x, y := bs.additionalProperties.value, ns.additionalProperties.value;
        assert AdditionalMembers(b, ms, x, subA, env) == AdditionalMembers(n, ms, y, subB, env);
      }
    }
    assert PropertiesPart(b, v, subA) == PropertiesPart(n, v, subB);
    assert PatternPropertiesPart(b, v, subA, env) == PatternPropertiesPart(n, v, subB, env);
    assert AdditionalPart(b, v, subA, env) == AdditionalPart(n, v, subB, env);
  }

  lemma ProvidersCongruent<A(!new), B(!new)>(b: Schema<A>, n: Schema<B>, v: Json, rel: (A, B) -> bool, subA: (A, Json) -> Outcome, subB: (B, Json) -> Outcome, env: Env, providers: seq<Provider>)
    requires Corresponds(b, n, rel, providers) && Agree(rel, subA, subB)
    ensures ProviderOutcomes(providers, b, v, subA, env) == ProviderOutcomes(providers, n, v, subB, env)
  {
    if OneOfProvider in providers {
      ApplyCongruent(b.subs.oneOf, n.subs.oneOf, v, rel, subA, subB);
    }
    if PropertiesProvider in providers {
      PropertiesCongruent(b, n, v, rel, subA, subB, env, providers);
    }
    forall i | 0 <= i < |providers|
      ensures ProviderOutcome(providers[i], b, v, subA, env) == ProviderOutcome(providers[i], n, v, subB, env)
    {
      assert providers[i] in providers;
    }
  }

  lemma KeywordCongruent<A(!new), B(!new)>(k: Builder, b: Schema<A>, n: Schema<B>, v: Json, rel: (A, B) -> bool, subA: (A, Json) -> Outcome, subB: (B, Json) -> Outcome, env: Env, providers: seq<Provider>)
    requires Corresponds(b, n, rel, providers) && Agree(rel, subA, subB)
    ensures KeywordOutcome(k, b, v, subA, env) == KeywordOutcome(k, n, v, subB, env)
  {
    if k.BuildAllOf? || k.BuildAnyOf? || k.BuildContains? || k.BuildDependencies? || k.BuildItems? || k.BuildNot? || k.BuildIfThenElse? {
      ReferenceKeywordCongruent(k, b, n, v, rel, subA, subB, env, providers);
    } else {
      BoundKeywordsCongruent(b, n, v, env);
      AttributeKeywordsCongruent(b, n, v, env);
    }
  }

  /** The keywords that consult references evaluate alike on corresponding nodes. */
  lemma ReferenceKeywordCongruent<A(!new), B(!new)>(k: Builder, b: Schema<A>, n: Schema<B>, v: Json, rel: (A, B) -> bool, subA: (A, Json) -> Outcome, subB: (B, Json) -> Outcome, env: Env, providers: seq<Provider>)
    requires k.BuildAllOf? || k.BuildAnyOf? || k.BuildContains? || k.BuildDependencies? || k.BuildItems? || k.BuildNot? || k.BuildIfThenElse?
    requires Corresponds(b, n, rel, providers) && Agree(rel, subA, subB)
    ensures KeywordOutcome(k, b, v, subA, env) == KeywordOutcome(k, n, v, subB, env)
  {
    match k
    case BuildAllOf => ApplyCongruent(b.subs.allOf, n.subs.allOf, v, rel, subA, subB);
    case BuildAnyOf => ApplyCongruent(b.subs.anyOf, n.subs.anyOf, v, rel, subA, subB);
    case BuildContains =>
      if n.subs.contains.Some? && v.Arr? {
        EachCongruent(b.subs.contains.value, n.subs.contains.value, v.items, rel, subA, subB);
      }
    case BuildDependencies => DependenciesCongruent(b, n, v, rel, subA, subB, providers);
    case BuildItems => ItemsCongruent(b, n, v, rel, subA, subB, providers);
    case BuildNot =>
    case BuildIfThenElse =>
  }

  lemma KeywordsCongruent<A(!new), B(!new)>(b: Schema<A>, n: Schema<B>, v: Json, rel: (A, B) -> bool, subA: (A, Json) -> Outcome, subB: (B, Json) -> Outcome, env: Env, providers: seq<Provider>)
    requires Corresponds(b, n, rel, providers) && Agree(rel, subA, subB)
    ensures KeywordOutcomes(b, v, subA, env) == KeywordOutcomes(n, v, subB, env)
  {
    forall i | 0 <= i < |BuilderOrder|
      ensures KeywordOutcomes(b, v, subA, env)[i] == KeywordOutcomes(n, v, subB, env)[i]
    {
      KeywordCongruent(BuilderOrder[i], b, n, v, rel, subA, subB, env, providers);
    }
  }

  /** The bound keywords depend on the attributes alone. */
  lemma BoundKeywordsCongruent<A, B>(b: Schema<A>, n: Schema<B>, v: Json, env: Env)
    requires b.attrs == n.attrs
    ensures MaximumKeyword(b, v) == MaximumKeyword(n, v) && MinimumKeyword(b, v) == MinimumKeyword(n, v)
    ensures MaximumItemsKeyword(b, v) == MaximumItemsKeyword(n, v) && MinimumItemsKeyword(b, v) == MinimumItemsKeyword(n, v)
    ensures MaximumLengthKeyword(b, v, env) == MaximumLengthKeyword(n, v, env) && MinimumLengthKeyword(b, v, env) == MinimumLengthKeyword(n, v, env)
    ensures MaximumPropertiesKeyword(b, v) == MaximumPropertiesKeyword(n, v) && MinimumPropertiesKeyword(b, v) == MinimumPropertiesKeyword(n, v)
  {
  }

  /** The other keywords that consult no reference depend on the attributes alone. */
  lemma AttributeKeywordsCongruent<A, B>(b: Schema<A>, n: Schema<B>, v: Json, env: Env)
    requires b.attrs == n.attrs
    ensures ConstKeyword(b, v, env) == ConstKeyword(n, v, env) && EnumKeyword(b, v, env) == EnumKeyword(n, v, env)
    ensures MultipleOfKeyword(b, v, env) == MultipleOfKeyword(n, v, env) && PatternKeyword(b, v, env) == PatternKeyword(n, v, env)
    ensures RequiredKeyword(b, v) == RequiredKeyword(n, v) && TypeKeyword(b, v) == TypeKeyword(n, v)
    ensures UniqueItemsKeyword(b, v, env) == UniqueItemsKeyword(n, v, env) && ValidKeyword(b) == ValidKeyword(n)
  {
  }

  /**
   * A body that corresponds to a node, with references evaluated alike at
   * related pairs, computes the node's outcome on every value.
   */
  lemma BodyCongruence<A(!new), B(!new)>(b: Schema<A>, n: Schema<B>, v: Json, rel: (A, B) -> bool, subA: (A, Json) -> Outcome, subB: (B, Json) -> Outcome, env: Env, providers: seq<Provider>)
    requires Corresponds(b, n, rel, providers) && Agree(rel, subA, subB)
    ensures Body(b, v, subA, env, providers) == Body(n, v, subB, env, providers)
  {
    KeywordsCongruent(b, n, v, rel, subA, subB, env, providers);
    ProvidersCongruent(b, n, v, rel, subA, subB, env, providers);
  }
}
