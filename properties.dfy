/**
 * The properties provider: properties, patternProperties and the two forms
 * of additionalProperties, each applied to objects only.
 */
module PropertyKeywords {
  import opened Wrappers
  import opened JsonValues
  import opened Schemas
  import opened Outcomes
  import opened Keywords

  /** A declared property: checked against its member's value only when the member exists. */
  function PropertyCheck<R>(name: string, r: R, members: seq<(string, Json)>, sub: (R, Json) -> Outcome): (o: Outcome)
    ensures !HasMember(members, name) ==> o == Accept
    ensures HasMember(members, name) ==> o == sub(r, Lookup(members, name).value)
  {
    match Lookup(members, name)
    case Some(x) => sub(r, x)
    case None => Accept
  }

  function PropertyChecks<R>(props: seq<(string, R)>, members: seq<(string, Json)>, sub: (R, Json) -> Outcome): (os: seq<Outcome>)
    ensures |os| == |props| && forall i :: 0 <= i < |props| ==> os[i] == PropertyCheck(props[i].0, props[i].1, members, sub)
  {
    seq(|props|, i requires 0 <= i < |props| => PropertyCheck(props[i].0, props[i].1, members, sub))
  }

  /** One member under one pattern: a name the pattern matches must satisfy the schema. */
  function PatternMember<R>(pattern: string, r: R, member: (string, Json), sub: (R, Json) -> Outcome, env: Env): Outcome
  {
    match env.matches(member.0, pattern)
    case None => Raise(RegexError)
    case Some(m) => if m then sub(r, member.1) else Accept
  }

  function PatternMembers<R>(pattern: string, r: R, members: seq<(string, Json)>, sub: (R, Json) -> Outcome, env: Env): (os: seq<Outcome>)
    ensures |os| == |members| && forall i :: 0 <= i < |members| ==> os[i] == PatternMember(pattern, r, members[i], sub, env)
  {
    seq(|members|, i requires 0 <= i < |members| => PatternMember(pattern, r, members[i], sub, env))
  }

  /** What the emitted pattern-property loop computes on an object. */
  function PatternPropertySpec<R>(pattern: string, r: R, members: seq<(string, Json)>, sub: (R, Json) -> Outcome, env: Env): Outcome
  {
    AndAll(PatternMembers(pattern, r, members, sub, env))
  }

  function PatternPropertyChecks<R>(pats: seq<(string, R)>, members: seq<(string, Json)>, sub: (R, Json) -> Outcome, env: Env): (os: seq<Outcome>)
    ensures |os| == |pats| && forall i :: 0 <= i < |pats| ==> os[i] == PatternPropertySpec(pats[i].0, pats[i].1, members, sub, env)
  {
    seq(|pats|, i requires 0 <= i < |pats| => PatternPropertySpec(pats[i].0, pats[i].1, members, sub, env))
  }

  /** A pattern tried against a member name; a pattern the engine refuses raises. */
  function MatchOutcome(name: string, pattern: string, env: Env): (o: Outcome)
    ensures env.matches(name, pattern).Some? ==> o == FromBool(env.matches(name, pattern).value)
    ensures env.matches(name, pattern).None? ==> o == Raise(RegexError)
  {
    match env.matches(name, pattern)
    case None => Raise(RegexError)
    case Some(m) => FromBool(m)
  }

  function MatchOutcomes<R>(name: string, pats: seq<(string, R)>, env: Env): (os: seq<Outcome>)
    ensures |os| == |pats| && forall i :: 0 <= i < |pats| ==> os[i] == MatchOutcome(name, pats[i].0, env)
  {
    seq(|pats|, i requires 0 <= i < |pats| => MatchOutcome(name, pats[i].0, env))
  }

  /**
   * Whether a member name is covered: a declared property name, or else a
   * name some pattern-property key matches (patterns tried in order).
   */
  function Covered<R>(s: Schema<R>, name: string, env: Env): Outcome
  {
    if name in Keys(s.subs.properties) then Accept
    else OrAll(MatchOutcomes(name, s.subs.patternProperties, env))
  }

  function CoveredAll<R>(s: Schema<R>, members: seq<(string, Json)>, env: Env): (os: seq<Outcome>)
    ensures |os| == |members| && forall i :: 0 <= i < |members| ==> os[i] == Covered(s, members[i].0, env)
  {
    seq(|members|, i requires 0 <= i < |members| => Covered(s, members[i].0, env))
  }

  /** additionalProperties false: every member must be covered. */
  function AllowAdditionalSpec<R>(s: Schema<R>, members: seq<(string, Json)>, env: Env): Outcome
  {
    AndAll(CoveredAll(s, members, env))
  }

  /** One member under an additional-properties schema: an uncovered member must satisfy it. */
  function AdditionalMember<R>(s: Schema<R>, member: (string, Json), r: R, sub: (R, Json) -> Outcome, env: Env): Outcome
  {
    Cond(Covered(s, member.0, env), Accept, sub(r, member.1))
  }

  function AdditionalMembers<R>(s: Schema<R>, members: seq<(string, Json)>, r: R, sub: (R, Json) -> Outcome, env: Env): (os: seq<Outcome>)
    ensures |os| == |members| && forall i :: 0 <= i < |members| ==> os[i] == AdditionalMember(s, members[i], r, sub, env)
  {
    seq(|members|, i requires 0 <= i < |members| => AdditionalMember(s, members[i], r, sub, env))
  }

  function AdditionalSpec<R>(s: Schema<R>, members: seq<(string, Json)>, r: R, sub: (R, Json) -> Outcome, env: Env): Outcome
  {
    AndAll(AdditionalMembers(s, members, r, sub, env))
  }

  function PropertiesPart<R>(s: Schema<R>, v: Json, sub: (R, Json) -> Outcome): (r: Option<Outcome>)
    ensures r.Some? <==> |s.subs.properties| > 0
    ensures r.Some? && !v.Obj? ==> r.value == Accept
  {
    if |s.subs.properties| == 0 then None
    else if v.Obj? then Some(AndAll(PropertyChecks(s.subs.properties, v.members, sub)))
    else Some(Accept)
  }

  function PatternPropertiesPart<R>(s: Schema<R>, v: Json, sub: (R, Json) -> Outcome, env: Env): (r: Option<Outcome>)
    ensures r.Some? <==> |s.subs.patternProperties| > 0
    ensures r.Some? && !v.Obj? ==> r.value == Accept
  {
    if |s.subs.patternProperties| == 0 then None
    else if v.Obj? then Some(AndAll(PatternPropertyChecks(s.subs.patternProperties, v.members, sub, env)))
    else Some(Accept)
  }

  function AdditionalPart<R>(s: Schema<R>, v: Json, sub: (R, Json) -> Outcome, env: Env): (r: Option<Outcome>)
    ensures r.Some? <==> !s.attrs.allowAdditionalProperties || s.subs.additionalProperties.Some?
    ensures r.Some? && !v.Obj? ==> r.value == Accept
  {
    if !s.attrs.allowAdditionalProperties then
      Some(if v.Obj? then AllowAdditionalSpec(s, v.members, env) else Accept)
    else if s.subs.additionalProperties.Some? then
      Some(if v.Obj? then AdditionalSpec(s, v.members, s.subs.additionalProperties.value, sub, env) else Accept)
    else None
  }

  function Present(o: Option<Outcome>): seq<Outcome>
  {
    if o.Some? then [o.value] else []
  }

  /** The provider's contribution: the conjunction of the parts present; with none present it is true. */
  function PropertiesProviderOutcome<R>(s: Schema<R>, v: Json, sub: (R, Json) -> Outcome, env: Env): Outcome
  {
    AndAll(Present(PropertiesPart(s, v, sub)) + Present(PatternPropertiesPart(s, v, sub, env)) + Present(AdditionalPart(s, v, sub, env)))
  }

  /** The static loop behind patternProperties, with an early return at the first failing member. */
  method PatternProperty<R>(pattern: string, r: R, members: seq<(string, Json)>, sub: (R, Json) -> Outcome, env: Env)
    returns (o: Outcome)
    ensures o == PatternPropertySpec(pattern, r, members, sub, env)
  {
    ghost var os := PatternMembers(pattern, r, members, sub, env);
    for i := 0 to |members|
      invariant forall k :: 0 <= k < i ==> os[k] == Accept
    {
      var m := env.matches(members[i].0, pattern);
      if m.None? {
        AndAllFirstFailure(os, i);
        return Raise(RegexError);
      }
      if m.value {
        var x := sub(r, members[i].1);
        if x != Accept {
          AndAllFirstFailure(os, i);
          return x;
        }
      }
    }
    AndAllAccepts(os);
    return Accept;
  }

  /** The pattern scan behind the covered test: the first pattern that matches ends it. */
  method AnyPatternMatches<R>(name: string, pats: seq<(string, R)>, env: Env) returns (o: Outcome)
    ensures o == OrAll(MatchOutcomes(name, pats, env))
  {
    ghost var os := MatchOutcomes(name, pats, env);
    for i := 0 to |pats|
      invariant forall k :: 0 <= k < i ==> os[k] == Reject
    {
      var m := env.matches(name, pats[i].0);
      if m.None? {
        OrAllFirstSuccess(os, i);
        return Raise(RegexError);
      }
      if m.value {
        OrAllFirstSuccess(os, i);
        return Accept;
      }
    }
    OrAllRejects(os);
    return Reject;
  }

  method IsCovered<R>(s: Schema<R>, name: string, env: Env) returns (o: Outcome)
    ensures o == Covered(s, name, env)
  {
    if name in Keys(s.subs.properties) {
      return Accept;
    }
    o := AnyPatternMatches(name, s.subs.patternProperties, env);
  }

  /** The static loop behind additionalProperties false: the first uncovered member returns false. */
  method AllowAdditionalProperties<R>(s: Schema<R>, members: seq<(string, Json)>, env: Env) returns (o: Outcome)
    ensures o == AllowAdditionalSpec(s, members, env)
  {
    ghost var os := CoveredAll(s, members, env);
    for i := 0 to |members|
      invariant forall k :: 0 <= k < i ==> os[k] == Accept
    {
      var c := IsCovered(s, members[i].0, env);
      if c != Accept {
        AndAllFirstFailure(os, i);
        return c;
      }
    }
    AndAllAccepts(os);
    return Accept;
  }

  /** The static loop behind an additional-properties schema: uncovered members are checked in order. */
  method AdditionalProperties<R>(s: Schema<R>, members: seq<(string, Json)>, r: R, sub: (R, Json) -> Outcome, env: Env)
    returns (o: Outcome)
    ensures o == AdditionalSpec(s, members, r, sub, env)
  {
    ghost var os := AdditionalMembers(s, members, r, sub, env);
    for i := 0 to |members|
      invariant forall k :: 0 <= k < i ==> os[k] == Accept
    {
      var c := IsCovered(s, members[i].0, env);
      if c == Reject {
        var x := sub(r, members[i].1);
        if x != Accept {
          AndAllFirstFailure(os, i);
          return x;
        }
      } else if c != Accept {
        AndAllFirstFailure(os, i);
        return c;
      }
    }
    AndAllAccepts(os);
    return Accept;
  }

  /** Valid patterns: the engine accepts every pattern-property key for every name. */
  ghost predicate PatternsValid<R>(s: Schema<R>, env: Env)
  {
    forall name: string, i :: 0 <= i < |s.subs.patternProperties| ==> env.matches(name, s.subs.patternProperties[i].0).Some?
  }

  ghost predicate IsCoveredName<R>(s: Schema<R>, name: string, env: Env)
  {
    name in Keys(s.subs.properties) ||
    exists i :: 0 <= i < |s.subs.patternProperties| && env.matches(name, s.subs.patternProperties[i].0) == Some(true)
  }

  /** With valid patterns, the covered test is a declared name or a matching pattern. */
  lemma CoveredMeans<R>(s: Schema<R>, name: string, env: Env)
    requires PatternsValid(s, env)
    ensures Covered(s, name, env) == FromBool(IsCoveredName(s, name, env))
  {
    if name !in Keys(s.subs.properties) {
      var os := MatchOutcomes(name, s.subs.patternProperties, env);
      assert AllDefinite(os) by {
        forall i | 0 <= i < |os| ensures Definite(os[i]) {
          assert env.matches(name, s.subs.patternProperties[i].0).Some?;
        }
      }
      OrAllDefinite(os);
    }
  }

  /** Every property-related part passes on a value that is not an object. */
  lemma NonObjectsPass<R>(s: Schema<R>, v: Json, sub: (R, Json) -> Outcome, env: Env)
    requires !v.Obj?
    ensures PropertiesProviderOutcome(s, v, sub, env) == Accept
  {
    var parts := Present(PropertiesPart(s, v, sub)) + Present(PatternPropertiesPart(s, v, sub, env)) + Present(AdditionalPart(s, v, sub, env));
    AndAllAccepts(parts);
  }

  /**
   * A pattern property holds on an object iff every member whose name the
   * pattern matches satisfies the schema (for a valid pattern and definite
   * member outcomes); so one member may be checked by several patterns.
   */
  lemma PatternPropertyHolds<R>(pattern: string, r: R, members: seq<(string, Json)>, sub: (R, Json) -> Outcome, env: Env)
    requires forall i :: 0 <= i < |members| ==> env.matches(members[i].0, pattern).Some?
    requires forall i :: 0 <= i < |members| && env.matches(members[i].0, pattern) == Some(true) ==> Definite(sub(r, members[i].1))
    ensures PatternPropertySpec(pattern, r, members, sub, env) == FromBool(
      forall i :: 0 <= i < |members| && env.matches(members[i].0, pattern) == Some(true) ==> sub(r, members[i].1) == Accept)
  {
    var os := PatternMembers(pattern, r, members, sub, env);
    assert AllDefinite(os);
    AndAllDefinite(os);
  }

  /** additionalProperties false rejects an object iff some member is not covered (for valid patterns). */
  lemma DisallowRejectsUncovered<R>(s: Schema<R>, members: seq<(string, Json)>, env: Env)
    requires PatternsValid(s, env)
    ensures AllowAdditionalSpec(s, members, env) == Reject <==> exists i :: 0 <= i < |members| && !IsCoveredName(s, members[i].0, env)
    ensures Definite(AllowAdditionalSpec(s, members, env))
  {
    var os := CoveredAll(s, members, env);
    forall i | 0 <= i < |members| ensures os[i] == FromBool(IsCoveredName(s, members[i].0, env)) {
      CoveredMeans(s, members[i].0, env);
    }
    AndAllDefinite(os);
  }

  /**
   * An additional-properties schema is checked against exactly the
   * uncovered members (for valid patterns and definite outcomes).
   */
  lemma AdditionalChecksUncovered<R>(s: Schema<R>, members: seq<(string, Json)>, r: R, sub: (R, Json) -> Outcome, env: Env)
    requires PatternsValid(s, env)
    requires forall i :: 0 <= i < |members| ==> Definite(sub(r, members[i].1))
    ensures AdditionalSpec(s, members, r, sub, env) == FromBool(
      forall i :: 0 <= i < |members| && !IsCoveredName(s, members[i].0, env) ==> sub(r, members[i].1) == Accept)
  {
    var os := AdditionalMembers(s, members, r, sub, env);
    forall i | 0 <= i < |members|
      ensures os[i] == (if IsCoveredName(s, members[i].0, env) then Accept else sub(r, members[i].1))
    {
      CoveredMeans(s, members[i].0, env);
    }
    AndAllDefinite(os);
  }

  /**
   * The covered test is the same in both forms: an additional-properties
   * schema that rejects everything behaves as additionalProperties false,
   * exceptions included.
   */
  lemma RejectingAdditionalIsDisallow<R>(s: Schema<R>, members: seq<(string, Json)>, r: R, sub: (R, Json) -> Outcome, env: Env)
    requires forall i :: 0 <= i < |members| ==> sub(r, members[i].1) == Reject
    ensures AdditionalSpec(s, members, r, sub, env) == AllowAdditionalSpec(s, members, env)
  {
    assert AdditionalMembers(s, members, r, sub, env) == CoveredAll(s, members, env);
  }
}
