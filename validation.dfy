/**
 * The meaning of a schema graph: a node's body is the conjunction, in the
 * builder's order, of the keyword contributions that are present, followed
 * by those of the providers. Validation against a node runs with fuel; a
 * cycle that never reaches a smaller value uses it all up (Diverge).
 */
module Validation {
  import opened Wrappers
  import opened JsonValues
  import opened Schemas
  import opened Outcomes
  import opened Keywords
  import opened PropertyKeywords

  /** The additional keyword builders the expression builder consults, in order. */
  datatype Provider = PropertiesProvider | OneOfProvider

  /** oneOf contributes nothing when empty, and otherwise the exactly-one scan. */
  function OneOfProviderOutcome<R>(s: Schema<R>, v: Json, sub: (R, Json) -> Outcome): (r: Option<Outcome>)
    ensures r.Some? <==> |s.subs.oneOf| > 0
  {
    if |s.subs.oneOf| == 0 then None else Some(OneOfScan(Apply(s.subs.oneOf, v, sub), false))
  }

  function ProviderOutcome<R>(p: Provider, s: Schema<R>, v: Json, sub: (R, Json) -> Outcome, env: Env): Option<Outcome>
  {
    match p
    case PropertiesProvider => Some(PropertiesProviderOutcome(s, v, sub, env))
    case OneOfProvider => OneOfProviderOutcome(s, v, sub)
  }

  /** The keyword builders, one per keyword a node body consults. */
  datatype Builder =
    | BuildAllOf | BuildAnyOf | BuildConst | BuildContains | BuildDependencies | BuildEnum | BuildItems
    | BuildMaximum | BuildMaximumItems | BuildMaximumLength | BuildMaximumProperties
    | BuildMinimum | BuildMinimumItems | BuildMinimumLength | BuildMinimumProperties
    | BuildMultipleOf | BuildNot | BuildPattern | BuildRequired | BuildType | BuildUniqueItems
    | BuildValid | BuildIfThenElse

  /** The order in which a node's body consults the keyword builders. */
  const BuilderOrder: seq<Builder> :=
    [ BuildAllOf, BuildAnyOf, BuildConst, BuildContains, BuildDependencies, BuildEnum, BuildItems,
      BuildMaximum, BuildMaximumItems, BuildMaximumLength, BuildMaximumProperties,
      BuildMinimum, BuildMinimumItems, BuildMinimumLength, BuildMinimumProperties,
      BuildMultipleOf, BuildNot, BuildPattern, BuildRequired, BuildType, BuildUniqueItems,
      BuildValid, BuildIfThenElse ]

  /** Every keyword builder is consulted. */
  lemma EveryBuilderIsConsulted(k: Builder)
    ensures k in BuilderOrder
  {
    match k
    case BuildAllOf => assert BuilderOrder[0] == k;
    case BuildAnyOf => assert BuilderOrder[1] == k;
    case BuildConst => assert BuilderOrder[2] == k;
    case BuildContains => assert BuilderOrder[3] == k;
    case BuildDependencies => assert BuilderOrder[4] == k;
    case BuildEnum => assert BuilderOrder[5] == k;
    case BuildItems => assert BuilderOrder[6] == k;
    case BuildMaximum => assert BuilderOrder[7] == k;
    case BuildMaximumItems => assert BuilderOrder[8] == k;
    case BuildMaximumLength => assert BuilderOrder[9] == k;
    case BuildMaximumProperties => assert BuilderOrder[10] == k;
    case BuildMinimum => assert BuilderOrder[11] == k;
    case BuildMinimumItems => assert BuilderOrder[12] == k;
    case BuildMinimumLength => assert BuilderOrder[13] == k;
    case BuildMinimumProperties => assert BuilderOrder[14] == k;
    case BuildMultipleOf => assert BuilderOrder[15] == k;
    case BuildNot => assert BuilderOrder[16] == k;
    case BuildPattern => assert BuilderOrder[17] == k;
    case BuildRequired => assert BuilderOrder[18] == k;
    case BuildType => assert BuilderOrder[19] == k;
    case BuildUniqueItems => assert BuilderOrder[20] == k;
    case BuildValid => assert BuilderOrder[21] == k;
    case BuildIfThenElse => assert BuilderOrder[22] == k;
  }

  /** The contribution of one keyword builder to a node's body; None when the keyword is absent. */
  function KeywordOutcome<R>(k: Builder, s: Schema<R>, v: Json, sub: (R, Json) -> Outcome, env: Env): Option<Outcome>
  {
    match k
    case BuildAllOf => AllOfKeyword(s, v, sub)
    case BuildAnyOf => AnyOfKeyword(s, v, sub)
    case BuildConst => ConstKeyword(s, v, env)
    case BuildContains => ContainsKeyword(s, v, sub)
    case BuildDependencies => DependenciesKeyword(s, v, sub)
    case BuildEnum => EnumKeyword(s, v, env)
    case BuildItems => ItemsKeyword(s, v, sub)
    case BuildMaximum => MaximumKeyword(s, v)
    case BuildMaximumItems => MaximumItemsKeyword(s, v)
    case BuildMaximumLength => MaximumLengthKeyword(s, v, env)
    case BuildMaximumProperties => MaximumPropertiesKeyword(s, v)
    case BuildMinimum => MinimumKeyword(s, v)
    case BuildMinimumItems => MinimumItemsKeyword(s, v)
    case BuildMinimumLength => MinimumLengthKeyword(s, v, env)
    case BuildMinimumProperties => MinimumPropertiesKeyword(s, v)
    case BuildMultipleOf => MultipleOfKeyword(s, v, env)
    case BuildNot => NotKeyword(s, v, sub)
    case BuildPattern => PatternKeyword(s, v, env)
    case BuildRequired => RequiredKeyword(s, v)
    case BuildType => TypeKeyword(s, v)
    case BuildUniqueItems => UniqueItemsKeyword(s, v, env)
    case BuildValid => ValidKeyword(s)
    case BuildIfThenElse => IfThenElseKeyword(s, v, sub)
  }

  /** The keyword contributions in the order the builder emits them. */
  function KeywordOutcomes<R>(s: Schema<R>, v: Json, sub: (R, Json) -> Outcome, env: Env): (os: seq<Option<Outcome>>)
    ensures |os| == |BuilderOrder| && forall i :: 0 <= i < |BuilderOrder| ==> os[i] == KeywordOutcome(BuilderOrder[i], s, v, sub, env)
  {
    seq(|BuilderOrder|, i requires 0 <= i < |BuilderOrder| => KeywordOutcome(BuilderOrder[i], s, v, sub, env))
  }

  function ProviderOutcomes<R>(providers: seq<Provider>, s: Schema<R>, v: Json, sub: (R, Json) -> Outcome, env: Env): (os: seq<Option<Outcome>>)
    ensures |os| == |providers| && forall i :: 0 <= i < |providers| ==> os[i] == ProviderOutcome(providers[i], s, v, sub, env)
  {
    seq(|providers|, i requires 0 <= i < |providers| => ProviderOutcome(providers[i], s, v, sub, env))
  }

  function Contributions<R>(s: Schema<R>, v: Json, sub: (R, Json) -> Outcome, env: Env, providers: seq<Provider>): seq<Option<Outcome>>
  {
    KeywordOutcomes(s, v, sub, env) + ProviderOutcomes(providers, s, v, sub, env)
  }

  /** A contribution that is absent or accepts. */
  predicate Holds(o: Option<Outcome>)
  {
    o.Some? ==> o.value == Accept
  }

  /** The contributions that are present, in order. */
  function PresentAll(os: seq<Option<Outcome>>): seq<Outcome>
  {
    if |os| == 0 then [] else Present(os[0]) + PresentAll(os[1..])
  }

  /** A node's body: the conjunction of its present contributions. */
  function Body<R>(s: Schema<R>, v: Json, sub: (R, Json) -> Outcome, env: Env, providers: seq<Provider>): Outcome
  {
    AndAll(PresentAll(Contributions(s, v, sub, env, providers)))
  }

  /** Validation of a value against node n of a graph, with fuel for cycles. */
  function Valid(graph: seq<Schema<Id>>, n: Id, v: Json, fuel: nat, env: Env, providers: seq<Provider>): Outcome
    decreases fuel, 0
  {
    if fuel == 0 then Diverge
    else if n >= |graph| then Raise(NullReference)
    else Body(graph[n], v, ValidSub(graph, fuel - 1, env, providers), env, providers)
  }

  /** Validation against the referenced node, as the body of a node consults it. */
  function ValidSub(graph: seq<Schema<Id>>, fuel: nat, env: Env, providers: seq<Provider>): (Id, Json) -> Outcome
    decreases fuel, 1
  {
    (m: Id, w: Json) => Valid(graph, m, w, fuel, env, providers)
  }

  lemma {:induction false} AndAllAppend(xs: seq<Outcome>, ys: seq<Outcome>)
    ensures AndAll(xs + ys) == And(AndAll(xs), AndAll(ys))
  {
    if |xs| > 0 {
      assert (xs + ys)[1..] == xs[1..] + ys;
      AndAllAppend(xs[1..], ys);
    } else {
      assert xs + ys == ys;
    }
  }

  lemma {:induction false} PresentAllAppend(a: seq<Option<Outcome>>, b: seq<Option<Outcome>>)
    ensures PresentAll(a + b) == PresentAll(a) + PresentAll(b)
  {
    if |a| > 0 {
      assert (a + b)[1..] == a[1..] + b;
      PresentAllAppend(a[1..], b);
    } else {
      assert a + b == b;
    }
  }

  /** The conjunction over two groups of contributions is the conjunction of the groups. */
  lemma ConjunctionSplits(a: seq<Option<Outcome>>, b: seq<Option<Outcome>>)
    ensures AndAll(PresentAll(a + b)) == And(AndAll(PresentAll(a)), AndAll(PresentAll(b)))
  {
    PresentAllAppend(a, b);
    AndAllAppend(PresentAll(a), PresentAll(b));
  }

  /** The conjunction of the present contributions accepts iff each present one accepts. */
  lemma {:induction false} PresentAllAccepts(os: seq<Option<Outcome>>)
    ensures AndAll(PresentAll(os)) == Accept <==> forall i :: 0 <= i < |os| ==> Holds(os[i])
  {
    if |os| > 0 {
      PresentAllAccepts(os[1..]);
      AndAllAppend(Present(os[0]), PresentAll(os[1..]));
      assert forall i :: 1 <= i < |os| ==> os[i] == os[1..][i - 1];
    }
  }

  /**
   * A node's body accepts iff every keyword and provider contribution that
   * is present accepts.
   */
  lemma BodyIsConjunction<R>(s: Schema<R>, v: Json, sub: (R, Json) -> Outcome, env: Env, providers: seq<Provider>)
    ensures Body(s, v, sub, env, providers) == Accept <==>
      (forall k :: Holds(KeywordOutcome(k, s, v, sub, env))) &&
      (forall p :: p in providers ==> Holds(ProviderOutcome(p, s, v, sub, env)))
  {
    var ks := KeywordOutcomes(s, v, sub, env);
    var ps := ProviderOutcomes(providers, s, v, sub, env);
    ConjunctionSplits(ks, ps);
    PresentAllAccepts(ks);
    PresentAllAccepts(ps);
    if forall i :: 0 <= i < |ks| ==> Holds(ks[i]) {
      forall k ensures Holds(KeywordOutcome(k, s, v, sub, env)) {
        EveryBuilderIsConsulted(k);
      }
    }
  }

  /** Valid = false rejects every value: the body never accepts. */
  lemma ValidFalseNeverAccepts<R>(s: Schema<R>, v: Json, sub: (R, Json) -> Outcome, env: Env, providers: seq<Provider>)
    requires s.attrs.valid == Some(false)
    ensures Body(s, v, sub, env, providers) != Accept
  {
    BodyIsConjunction(s, v, sub, env, providers);
    assert !Holds(KeywordOutcome(BuildValid, s, v, sub, env));
  }

  /** A node with no keywords set accepts every value, whatever the providers. */
  lemma NoKeywordsAcceptsAll<R>(v: Json, sub: (R, Json) -> Outcome, env: Env, providers: seq<Provider>)
    ensures Body(NewSchema<R>(), v, sub, env, providers) == Accept
  {
    var s := NewSchema<R>();
    BodyIsConjunction(s, v, sub, env, providers);
    forall p | p in providers
      ensures Holds(ProviderOutcome(p, s, v, sub, env))
    {
      if p == PropertiesProvider {
        assert Present(PropertiesPart(s, v, sub)) + Present(PatternPropertiesPart(s, v, sub, env)) + Present(AdditionalPart(s, v, sub, env)) == [];
      }
    }
  }

  /** A non-empty oneOf of definite alternatives holds iff exactly one alternative accepts. */
  lemma OneOfHolds<R>(s: Schema<R>, v: Json, sub: (R, Json) -> Outcome)
    requires |s.subs.oneOf| > 0 && AllDefinite(Apply(s.subs.oneOf, v, sub))
    ensures OneOfProviderOutcome(s, v, sub) == Some(FromBool(multiset(Apply(s.subs.oneOf, v, sub))[Accept] == 1))
  {
    OneOfScanCounts(Apply(s.subs.oneOf, v, sub), false);
  }

  /** Reordering the alternatives of a oneOf does not change its definite answer. */
  lemma OneOfIgnoresOrder<R>(s: Schema<R>, t: Schema<R>, v: Json, sub: (R, Json) -> Outcome)
    requires multiset(s.subs.oneOf) == multiset(t.subs.oneOf)
    requires AllDefinite(Apply(s.subs.oneOf, v, sub))
    ensures OneOfProviderOutcome(s, v, sub) == OneOfProviderOutcome(t, v, sub)
  {
    var os := Apply(s.subs.oneOf, v, sub);
    var ps := Apply(t.subs.oneOf, v, sub);
    assert |s.subs.oneOf| == |multiset(s.subs.oneOf)| == |t.subs.oneOf|;
    if |s.subs.oneOf| > 0 {
      assert multiset(os) == multiset(ps) by {
        MapPreservesMultiset(s.subs.oneOf, t.subs.oneOf, v, sub);
      }
      OneOfOrderIndependent(os, ps);
    }
  }

  lemma ApplyAppend<R>(a: seq<R>, b: seq<R>, v: Json, sub: (R, Json) -> Outcome)
    ensures Apply(a + b, v, sub) == Apply(a, v, sub) + Apply(b, v, sub)
  {
    assert forall i :: 0 <= i < |b| ==> (a + b)[|a| + i] == b[i];
  }

  /** Taking the same element out of two permutations leaves permutations. */
  lemma RemoveMatching<R>(xs: seq<R>, ys: seq<R>, k: nat)
    requires multiset(xs) == multiset(ys) && |xs| > 0 && k < |ys| && ys[k] == xs[0]
    ensures multiset(xs[1..]) == multiset(ys[..k] + ys[k + 1..])
  {
    var x := xs[0];
    assert ys == ys[..k] + [x] + ys[k + 1..];
    assert xs == [x] + xs[1..];
    assert multiset(xs[1..]) == multiset(xs) - multiset{x};
    assert multiset(ys[..k] + ys[k + 1..]) == multiset(ys) - multiset{x};
  }

  /** Taking one position out of the schemas takes its outcome out of the results. */
  lemma ApplyRemove<R>(ys: seq<R>, k: nat, v: Json, sub: (R, Json) -> Outcome)
    requires k < |ys|
    ensures multiset(Apply(ys, v, sub)) == multiset{sub(ys[k], v)} + multiset(Apply(ys[..k] + ys[k + 1..], v, sub))
  {
    var front, back := ys[..k], ys[k + 1..];
    assert ys == front + [ys[k]] + back;
    ApplyAppend(front + [ys[k]], back, v, sub);
    ApplyAppend(front, [ys[k]], v, sub);
    ApplyAppend(front, back, v, sub);
  }

  lemma ApplyCons<R>(xs: seq<R>, v: Json, sub: (R, Json) -> Outcome)
    requires |xs| > 0
    ensures multiset(Apply(xs, v, sub)) == multiset{sub(xs[0], v)} + multiset(Apply(xs[1..], v, sub))
  {
    var os := Apply(xs, v, sub);
    var rest := Apply(xs[1..], v, sub);
    assert os == [sub(xs[0], v)] + rest by {
      forall i | 0 < i < |os| ensures os[i] == rest[i - 1] {
        assert xs[1..][i - 1] == xs[i];
      }
    }
  }

  /** Applying the same function to two permutations gives permutations. */
  lemma {:induction false} MapPreservesMultiset<R>(xs: seq<R>, ys: seq<R>, v: Json, sub: (R, Json) -> Outcome)
    requires multiset(xs) == multiset(ys)
    ensures multiset(Apply(xs, v, sub)) == multiset(Apply(ys, v, sub))
    decreases |xs|
  {
    if |xs| > 0 {
      assert xs[0] in multiset(ys);
      var k :| 0 <= k < |ys| && ys[k] == xs[0];
      RemoveMatching(xs, ys, k);
      MapPreservesMultiset(xs[1..], ys[..k] + ys[k + 1..], v, sub);
      ApplyRemove(ys, k, v, sub);
      ApplyCons(xs, v, sub);
    }
  }
}
