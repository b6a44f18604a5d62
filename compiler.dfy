/**
 * The cycle-safe compiler. Eval turns a node into code: the node's body
 * with every consulted reference replaced by the code for that reference.
 * A node met again while its own body is being built is not rebuilt; the
 * call goes through a slot (a delegate variable) that Build assigns once
 * all bodies are finished.
 */
module Compiler {
  import opened Wrappers
  import opened JsonValues
  import opened Schemas
  import opened Outcomes
  import opened Keywords
  import opened Validation
  import opened Congruence

  /** A delegate variable allocated for a node whose body recursed into the node itself. */
  datatype Slot = Slot(schema: Id)

  /**
   * Emitted code: a node's body inlined (its references replaced by code), a
   * call through a slot, or nothing at a position the body never consults.
   */
  datatype Code = Inline(origin: Id, body: Schema<Code>) | CallSlot(slot: Slot) | Skipped

  /** The slot assignments followed by the top-level code. */
  datatype Program = Program(assignments: map<Slot, Schema<Code>>, main: Code)

  /** Running code once the slots are assigned. */
  function Interp(c: Code, slots: map<Slot, Schema<Code>>, v: Json, fuel: nat, env: Env, providers: seq<Provider>): Outcome
    decreases fuel, 0
  {
    if fuel == 0 then Diverge
    else
      match c
      case Inline(_, b) => Body(b, v, InterpSub(slots, fuel - 1, env, providers), env, providers)
      case CallSlot(k) =>
        if k in slots then Body(slots[k], v, InterpSub(slots, fuel - 1, env, providers), env, providers)
        else Raise(NullReference)
      case Skipped => Raise(NullReference)
  }

  function InterpSub(slots: map<Slot, Schema<Code>>, fuel: nat, env: Env, providers: seq<Provider>): (Code, Json) -> Outcome
    decreases fuel, 1
  {
    (c: Code, w: Json) => Interp(c, slots, w, fuel, env, providers)
  }

  function Execute(p: Program, v: Json, fuel: nat, env: Env, providers: seq<Provider>): Outcome
  {
    Interp(p.main, p.assignments, v, fuel, env, providers)
  }

  /** The relation "this code was emitted for that node". */
  ghost function InT(pairs: set<(Code, Id)>): (Code, Id) -> bool
  {
    (c: Code, m: Id) => (c, m) in pairs
  }

  /** The nodes that have a slot. */
  function Slotted(delayed: map<Id, Option<Slot>>): (s: set<Id>)
    ensures forall m :: m in s <==> m in delayed && delayed[m].Some?
  {
    set m | m in delayed && delayed[m].Some?
  }

  /** Emitted code stands for its node: an inlined body corresponds to it, a call names its slot. */
  ghost predicate PairOk(arena: seq<Schema<Id>>, p: (Code, Id), pairs: set<(Code, Id)>, slotted: set<Id>, providers: seq<Provider>)
  {
    p.1 < |arena| &&
    match p.0
    case Inline(o, b) => o == p.1 && Corresponds(b, arena[p.1], InT(pairs), providers)
    case CallSlot(k) => k == Slot(p.1) && p.1 in slotted
    case Skipped => false
  }

  ghost predicate Sound(arena: seq<Schema<Id>>, pairs: set<(Code, Id)>, slotted: set<Id>, providers: seq<Provider>)
  {
    forall p :: p in pairs ==> PairOk(arena, p, pairs, slotted, providers)
  }

  /**
   * The builder's state: every delayed node is in progress (in active) or
   * finished with a slot (in compile); a slot belongs to its own node; a
   * body is stored only for a node with a slot and corresponds to it.
   */
  ghost predicate BuilderInv(arena: seq<Schema<Id>>, providers: seq<Provider>, delayed: map<Id, Option<Slot>>,
                             compile: map<Id, Schema<Code>>, pairs: set<(Code, Id)>, active: set<Id>)
  {
    WellFormed(arena) &&
    active <= delayed.Keys &&
    (forall m :: m in delayed ==> m < |arena| && (delayed[m].Some? ==> delayed[m].value == Slot(m)) && (m in active || m in compile)) &&
    (forall m :: m in compile ==> m in delayed && delayed[m].Some? && Corresponds(compile[m], arena[m], InT(pairs), providers)) &&
    Sound(arena, pairs, Slotted(delayed), providers)
  }

  /**
   * What a call leaves behind: delayed entries and slots stay, stored bodies
   * stay, emitted code stays, and a body is newly stored only for a node
   * that was not delayed before.
   */
  ghost predicate Extends(d0: map<Id, Option<Slot>>, c0: map<Id, Schema<Code>>, p0: set<(Code, Id)>,
                          d1: map<Id, Option<Slot>>, c1: map<Id, Schema<Code>>, p1: set<(Code, Id)>)
  {
    (forall m :: m in d0 ==> m in d1 && (d0[m].Some? ==> d1[m] == d0[m])) &&
    (forall m :: m in c0 ==> m in c1 && c1[m] == c0[m]) &&
    (forall m :: m in c1 && m !in c0 ==> m !in d0) &&
    p0 <= p1
  }

  lemma ExtendsTrans(d0: map<Id, Option<Slot>>, c0: map<Id, Schema<Code>>, p0: set<(Code, Id)>,
                     d1: map<Id, Option<Slot>>, c1: map<Id, Schema<Code>>, p1: set<(Code, Id)>,
                     d2: map<Id, Option<Slot>>, c2: map<Id, Schema<Code>>, p2: set<(Code, Id)>)
    requires Extends(d0, c0, p0, d1, c1, p1) && Extends(d1, c1, p1, d2, c2, p2)
    ensures Extends(d0, c0, p0, d2, c2, p2)
  {
  }

  /** Storing a body for a node that was not delayed before, or dropping such a node from delayed, extends the state. */
  lemma ExtendsStep(d0: map<Id, Option<Slot>>, c0: map<Id, Schema<Code>>, p0: set<(Code, Id)>,
                    d1: map<Id, Option<Slot>>, c1: map<Id, Schema<Code>>, p1: set<(Code, Id)>,
                    d2: map<Id, Option<Slot>>, c2: map<Id, Schema<Code>>, p2: set<(Code, Id)>, n: Id)
    requires Extends(d0, c0, p0, d1, c1, p1) && n !in d0 && n !in c0
    requires d2 == d1 || d2 == d1 - {n}
    requires c2.Keys == c1.Keys + {n} || c2 == c1
    requires forall m :: m in c1 && m != n ==> c2[m] == c1[m]
    requires p1 <= p2
    ensures Extends(d0, c0, p0, d2, c2, p2)
  {
  }

  lemma InTWithin(p0: set<(Code, Id)>, p1: set<(Code, Id)>)
    requires p0 <= p1
    ensures Within(InT(p0), InT(p1))
  {
  }

  /** The invariant survives new emitted code that stands for its node. */
  lemma InvGrows(arena: seq<Schema<Id>>, providers: seq<Provider>, delayed: map<Id, Option<Slot>>,
                 compile: map<Id, Schema<Code>>, pairs: set<(Code, Id)>, pairs': set<(Code, Id)>, active: set<Id>)
    requires BuilderInv(arena, providers, delayed, compile, pairs, active) && pairs <= pairs'
    requires forall p :: p in pairs' && p !in pairs ==> PairOk(arena, p, pairs', Slotted(delayed), providers)
    ensures BuilderInv(arena, providers, delayed, compile, pairs', active)
  {
    InTWithin(pairs, pairs');
    forall m | m in compile
      ensures Corresponds(compile[m], arena[m], InT(pairs'), providers)
    {
      CorrespondsMono(compile[m], arena[m], InT(pairs), InT(pairs'), providers);
    }
    forall p | p in pairs
      ensures PairOk(arena, p, pairs', Slotted(delayed), providers)
    {
      if p.0.Inline? {
        CorrespondsMono(p.0.body, arena[p.1], InT(pairs), InT(pairs'), providers);
      }
    }
  }

  /** Storing the finished body of a node with a slot, and emitting the call through the slot, keeps the invariant. */
  lemma StoreKeepsInv(arena: seq<Schema<Id>>, providers: seq<Provider>, delayed: map<Id, Option<Slot>>,
                      compile: map<Id, Schema<Code>>, pairs: set<(Code, Id)>, active: set<Id>, n: Id, body: Schema<Code>)
    requires BuilderInv(arena, providers, delayed, compile, pairs, active + {n}) && n !in active
    requires n in delayed && delayed[n].Some? && Corresponds(body, arena[n], InT(pairs), providers)
    ensures BuilderInv(arena, providers, delayed, compile[n := body], pairs + {(CallSlot(Slot(n)), n)}, active)
  {
    var compile' := compile[n := body];
    assert forall m :: m in compile' ==> m in delayed && delayed[m].Some? && Corresponds(compile'[m], arena[m], InT(pairs), providers);
    assert BuilderInv(arena, providers, delayed, compile', pairs, active);
    InvGrows(arena, providers, delayed, compile', pairs, pairs + {(CallSlot(Slot(n)), n)}, active);
  }

  /** Removing the delayed entry of a node that never recursed, and emitting its inlined body, keeps the invariant. */
  lemma InlineKeepsInv(arena: seq<Schema<Id>>, providers: seq<Provider>, delayed: map<Id, Option<Slot>>,
                       compile: map<Id, Schema<Code>>, pairs: set<(Code, Id)>, active: set<Id>, n: Id, body: Schema<Code>)
    requires BuilderInv(arena, providers, delayed, compile, pairs, active + {n}) && n !in active
    requires n in delayed && delayed[n].None? && n !in compile && Corresponds(body, arena[n], InT(pairs), providers)
    ensures BuilderInv(arena, providers, delayed - {n}, compile, pairs + {(Inline(n, body), n)}, active)
  {
    var d' := delayed - {n};
    assert Slotted(d') == Slotted(delayed);
    assert BuilderInv(arena, providers, d', compile, pairs, active);
    InTWithin(pairs, pairs + {(Inline(n, body), n)});
    CorrespondsMono(body, arena[n], InT(pairs), InT(pairs + {(Inline(n, body), n)}), providers);
    InvGrows(arena, providers, d', compile, pairs, pairs + {(Inline(n, body), n)}, active);
  }

  /** Allocating the slot of a delayed node, and emitting the call through it, keeps the invariant. */
  lemma SlotKeepsInv(arena: seq<Schema<Id>>, providers: seq<Provider>, delayed: map<Id, Option<Slot>>,
                     compile: map<Id, Schema<Code>>, pairs: set<(Code, Id)>, active: set<Id>, n: Id)
    requires BuilderInv(arena, providers, delayed, compile, pairs, active) && n in delayed
    ensures BuilderInv(arena, providers, delayed[n := Some(Slot(n))], compile, pairs + {(CallSlot(Slot(n)), n)}, active)
  {
    var d' := delayed[n := Some(Slot(n))];
    assert Slotted(delayed) <= Slotted(d');
    forall p | p in pairs
      ensures PairOk(arena, p, pairs, Slotted(d'), providers)
    {
      assert PairOk(arena, p, pairs, Slotted(delayed), providers);
    }
    assert BuilderInv(arena, providers, d', compile, pairs, active);
    InvGrows(arena, providers, d', compile, pairs, pairs + {(CallSlot(Slot(n)), n)}, active);
  }

  /** The first codes of a list, each emitted for the reference at its position. */
  ghost predicate EmittedAll(cs: seq<Code>, xs: seq<Id>, e: set<(Code, Id)>)
  {
    |cs| <= |xs| && forall j :: 0 <= j < |cs| ==> (cs[j], xs[j]) in e
  }

  lemma EmittedSnoc(cs: seq<Code>, xs: seq<Id>, e: set<(Code, Id)>, e': set<(Code, Id)>, c: Code)
    requires EmittedAll(cs, xs, e) && |cs| < |xs| && e <= e' && (c, xs[|cs|]) in e'
    ensures EmittedAll(cs + [c], xs, e')
  {
  }

  /** Present exactly when the reference is, and emitted for it. */
  ghost predicate EmittedOpt(c: Option<Code>, o: Option<Id>, e: set<(Code, Id)>)
  {
    c.Some? == o.Some? && (o.Some? ==> (c.value, o.value) in e)
  }

  /** The first entries of a table: same keys, values emitted for the references. */
  ghost predicate EmittedEntries(cs: seq<(string, Code)>, es: seq<(string, Id)>, e: set<(Code, Id)>)
  {
    |cs| <= |es| && forall j :: 0 <= j < |cs| ==> cs[j].0 == es[j].0 && (cs[j].1, es[j].1) in e
  }

  lemma EntriesSnoc(cs: seq<(string, Code)>, es: seq<(string, Id)>, e: set<(Code, Id)>, e': set<(Code, Id)>, c: Code)
    requires EmittedEntries(cs, es, e) && |cs| < |es| && e <= e' && (c, es[|cs|].1) in e'
    ensures EmittedEntries(cs + [(es[|cs|].0, c)], es, e')
  {
  }

  /** A dependency value as compiled: names kept, a schema emitted for its reference, nothing else. */
  ghost predicate EmittedDep(x: DepValue<Code>, y: DepValue<Id>, e: set<(Code, Id)>)
  {
    match y
    case Names(ns) => x == Names(ns)
    case SchemaDep(m) => x.SchemaDep? && (x.schema, m) in e
    case OtherValue => false
  }

  ghost predicate EmittedDeps(cs: seq<(string, DepValue<Code>)>, ds: seq<(string, DepValue<Id>)>, e: set<(Code, Id)>)
  {
    |cs| <= |ds| && forall j :: 0 <= j < |cs| ==> cs[j].0 == ds[j].0 && EmittedDep(cs[j].1, ds[j].1, e)
  }

  lemma DepsSnoc(cs: seq<(string, DepValue<Code>)>, ds: seq<(string, DepValue<Id>)>, e: set<(Code, Id)>, e': set<(Code, Id)>, x: DepValue<Code>)
    requires EmittedDeps(cs, ds, e) && |cs| < |ds| && e <= e' && EmittedDep(x, ds[|cs|].1, e')
    ensures EmittedDeps(cs + [(ds[|cs|].0, x)], ds, e')
  {
    forall j | 0 <= j < |cs|
      ensures EmittedDep(cs[j].1, ds[j].1, e')
    {
      assert EmittedDep(cs[j].1, ds[j].1, e);
    }
  }

  lemma EmittedAllGrows(cs: seq<Code>, xs: seq<Id>, e: set<(Code, Id)>, e': set<(Code, Id)>)
    requires EmittedAll(cs, xs, e) && e <= e'
    ensures EmittedAll(cs, xs, e')
  {
  }

  lemma EmittedEntriesGrows(cs: seq<(string, Code)>, es: seq<(string, Id)>, e: set<(Code, Id)>, e': set<(Code, Id)>)
    requires EmittedEntries(cs, es, e) && e <= e'
    ensures EmittedEntries(cs, es, e')
  {
  }

  lemma EmittedDepsGrows(cs: seq<(string, DepValue<Code>)>, ds: seq<(string, DepValue<Id>)>, e: set<(Code, Id)>, e': set<(Code, Id)>)
    requires EmittedDeps(cs, ds, e) && e <= e'
    ensures EmittedDeps(cs, ds, e')
  {
    forall j | 0 <= j < |cs|
      ensures EmittedDep(cs[j].1, ds[j].1, e')
    {
      assert EmittedDep(cs[j].1, ds[j].1, e);
    }
  }

  /** The compiled items links of node n, as the items builder consults them. */
  ghost predicate ItemsEmitted(items: seq<Code>, add: Option<Code>, n: Schema<Id>, e: set<(Code, Id)>)
  {
    var a, s := n.attrs, n.subs;
    |items| == |s.items| && add.Some? == s.additionalItems.Some? &&
    (a.itemsPositionValidation ==> EmittedAll(items, s.items, e)) &&
    (!a.itemsPositionValidation && |s.items| > 0 ==> (items[0], s.items[0]) in e) &&
    (a.itemsPositionValidation && a.allowAdditionalItems ==> EmittedOpt(add, s.additionalItems, e))
  }

  lemma ItemsEmittedGrows(items: seq<Code>, add: Option<Code>, n: Schema<Id>, e: set<(Code, Id)>, e': set<(Code, Id)>)
    requires ItemsEmitted(items, add, n, e) && e <= e'
    ensures ItemsEmitted(items, add, n, e')
  {
  }

  /** The compiled conditional links: the same presence, and emitted for their references when if is present. */
  ghost predicate CondEmitted(i: Option<Code>, t: Option<Code>, el: Option<Code>, s: Subschemas<Id>, e: set<(Code, Id)>)
  {
    i.Some? == s.ifSchema.Some? && t.Some? == s.thenSchema.Some? && el.Some? == s.elseSchema.Some? &&
    (s.ifSchema.Some? ==> EmittedOpt(i, s.ifSchema, e) && EmittedOpt(t, s.thenSchema, e) && EmittedOpt(el, s.elseSchema, e))
  }

  /** The compiled allOf, anyOf and contains links. */
  ghost predicate LogicEmitted(t: (seq<Code>, seq<Code>, Option<Code>), ns: Subschemas<Id>, e: set<(Code, Id)>)
  {
    |t.0| == |ns.allOf| && EmittedAll(t.0, ns.allOf, e) &&
    |t.1| == |ns.anyOf| && EmittedAll(t.1, ns.anyOf, e) &&
    EmittedOpt(t.2, ns.contains, e)
  }

  lemma LogicEmittedGrows(t: (seq<Code>, seq<Code>, Option<Code>), ns: Subschemas<Id>, e: set<(Code, Id)>, e': set<(Code, Id)>)
    requires LogicEmitted(t, ns, e) && e <= e'
    ensures LogicEmitted(t, ns, e')
  {
    EmittedAllGrows(t.0, ns.allOf, e, e');
    EmittedAllGrows(t.1, ns.anyOf, e, e');
  }

  /** The compiled items, not and conditional links. */
  ghost predicate ShapeEmitted(t: ((seq<Code>, Option<Code>), Option<Code>, (Option<Code>, Option<Code>, Option<Code>)), n: Schema<Id>, e: set<(Code, Id)>)
  {
    ItemsEmitted(t.0.0, t.0.1, n, e) && EmittedOpt(t.1, n.subs.notSchema, e) && CondEmitted(t.2.0, t.2.1, t.2.2, n.subs, e)
  }

  /** The compiled links of the properties provider. */
  ghost predicate PropertyEmitted(t: (seq<(string, Code)>, seq<(string, Code)>, Option<Code>), n: Schema<Id>, e: set<(Code, Id)>)
  {
    var ns := n.subs;
    |t.0| == |ns.properties| && EmittedEntries(t.0, ns.properties, e) &&
    |t.1| == |ns.patternProperties| && EmittedEntries(t.1, ns.patternProperties, e) &&
    t.2.Some? == ns.additionalProperties.Some? &&
    (n.attrs.allowAdditionalProperties ==> EmittedOpt(t.2, ns.additionalProperties, e))
  }

  /** The keyword builders' links of a compiled body against node n. */
  ghost predicate KeywordsEmitted(bs: Subschemas<Code>, n: Schema<Id>, e: set<(Code, Id)>)
  {
    var ns := n.subs;
    |bs.allOf| == |ns.allOf| && EmittedAll(bs.allOf, ns.allOf, e) &&
    |bs.anyOf| == |ns.anyOf| && EmittedAll(bs.anyOf, ns.anyOf, e) &&
    EmittedOpt(bs.contains, ns.contains, e) && EmittedOpt(bs.notSchema, ns.notSchema, e) &&
    |bs.dependencies| == |ns.dependencies| && EmittedDeps(bs.dependencies, ns.dependencies, e) &&
    ItemsEmitted(bs.items, bs.additionalItems, n, e) &&
    CondEmitted(bs.ifSchema, bs.thenSchema, bs.elseSchema, ns, e)
  }

  lemma KeywordsEmittedGrows(bs: Subschemas<Code>, n: Schema<Id>, e: set<(Code, Id)>, e': set<(Code, Id)>)
    requires KeywordsEmitted(bs, n, e) && e <= e'
    ensures KeywordsEmitted(bs, n, e')
  {
    EmittedDepsGrows(bs.dependencies, n.subs.dependencies, e, e');
  }

  /** The providers' links of a compiled body have the shape of node n's. */
  ghost predicate ProviderShape(bs: Subschemas<Code>, ns: Subschemas<Id>)
  {
    |bs.oneOf| == |ns.oneOf| &&
    |bs.properties| == |ns.properties| && (forall i :: 0 <= i < |ns.properties| ==> bs.properties[i].0 == ns.properties[i].0) &&
    |bs.patternProperties| == |ns.patternProperties| &&
    (forall i :: 0 <= i < |ns.patternProperties| ==> bs.patternProperties[i].0 == ns.patternProperties[i].0) &&
    bs.additionalProperties.Some? == ns.additionalProperties.Some?
  }

  /** The providers' links of a compiled body against node n, for the listed providers. */
  ghost predicate ProvidersEmitted(bs: Subschemas<Code>, n: Schema<Id>, e: set<(Code, Id)>, providers: seq<Provider>)
  {
    var ns := n.subs;
    ProviderShape(bs, ns) &&
    (OneOfProvider in providers ==> EmittedAll(bs.oneOf, ns.oneOf, e)) &&
    (PropertiesProvider in providers ==>
      EmittedEntries(bs.properties, ns.properties, e) && EmittedEntries(bs.patternProperties, ns.patternProperties, e) &&
      (n.attrs.allowAdditionalProperties ==> EmittedOpt(bs.additionalProperties, ns.additionalProperties, e)))
  }

  lemma ProvidersEmittedGrows(bs: Subschemas<Code>, n: Schema<Id>, e: set<(Code, Id)>, e': set<(Code, Id)>, providers: seq<Provider>)
    requires ProvidersEmitted(bs, n, e, providers) && e <= e'
    ensures ProvidersEmitted(bs, n, e', providers)
  {
  }

  /** A compiled body whose links were emitted for node n's links corresponds to node n. */
  lemma BodyLinked(bs: Subschemas<Code>, n: Schema<Id>, e: set<(Code, Id)>, providers: seq<Provider>)
    requires KeywordsEmitted(bs, n, e) && ProvidersEmitted(bs, n, e, providers)
    ensures Corresponds(Schema(n.attrs, bs), n, InT(e), providers)
  {
    var ns, rel := n.subs, InT(e);
    assert DepsRel(bs.dependencies, ns.dependencies, rel) by {
      forall j | 0 <= j < |bs.dependencies|
        ensures DepRel(bs.dependencies[j].1, ns.dependencies[j].1, rel)
      {
        assert EmittedDep(bs.dependencies[j].1, ns.dependencies[j].1, e);
      }
    }
  }

  /**
   * The keyword links compiled first and the provider links compiled after
   * them make a body that corresponds to node n.
   */
  lemma BodyAssembled(ks: Subschemas<Code>, bs: Subschemas<Code>, n: Schema<Id>, e: set<(Code, Id)>, e': set<(Code, Id)>, providers: seq<Provider>)
    requires KeywordsEmitted(ks, n, e) && e <= e' && ProvidersEmitted(bs, n, e', providers)
    requires bs == ks.(oneOf := bs.oneOf, properties := bs.properties,
                       patternProperties := bs.patternProperties, additionalProperties := bs.additionalProperties)
    ensures Corresponds(Schema(n.attrs, bs), n, InT(e'), providers)
  {
    KeywordsEmittedGrows(ks, n, e, e');
    assert KeywordsEmitted(bs, n, e');
    BodyLinked(bs, n, e', providers);
  }

  /** The slot assignments of a finished build: every allocated slot takes the stored body of its node. */
  function Assignments(delayed: map<Id, Option<Slot>>, compile: map<Id, Schema<Code>>): (slots: map<Slot, Schema<Code>>)
    requires forall m :: m in delayed && delayed[m].Some? ==> m in compile && delayed[m] == Some(Slot(m))
    ensures forall m :: Slot(m) in slots <==> m in delayed && delayed[m].Some?
    ensures forall m :: Slot(m) in slots ==> slots[Slot(m)] == compile[m]
  {
    map m | m in delayed && delayed[m].Some? :: delayed[m].value := compile[m]
  }

  /**
   * Once no body is in progress, every piece of emitted code runs, with the
   * slots assigned, exactly as validation against its node.
   */
  lemma {:induction false} PairsRunAsNodes(arena: seq<Schema<Id>>, providers: seq<Provider>, delayed: map<Id, Option<Slot>>,
                                           compile: map<Id, Schema<Code>>, pairs: set<(Code, Id)>,
                                           slots: map<Slot, Schema<Code>>, fuel: nat, env: Env)
    requires BuilderInv(arena, providers, delayed, compile, pairs, {})
    requires forall m :: m in delayed && delayed[m].Some? ==> Slot(m) in slots && slots[Slot(m)] == compile[m]
    ensures Agree(InT(pairs), InterpSub(slots, fuel, env, providers), ValidSub(arena, fuel, env, providers))
    decreases fuel
  {
    if fuel == 0 {
      NoFuelAgrees(arena, pairs, slots, env, providers);
    } else {
      PairsRunAsNodes(arena, providers, delayed, compile, pairs, slots, fuel - 1, env);
      forall c: Code, m: Id, w: Json | InT(pairs)(c, m)
        ensures InterpSub(slots, fuel, env, providers)(c, w) == ValidSub(arena, fuel, env, providers)(m, w)
      {
        PairStep(arena, providers, delayed, compile, pairs, slots, c, m, w, fuel, env);
      }
    }
  }

  lemma PairStep(arena: seq<Schema<Id>>, providers: seq<Provider>, delayed: map<Id, Option<Slot>>,
                 compile: map<Id, Schema<Code>>, pairs: set<(Code, Id)>, slots: map<Slot, Schema<Code>>,
                 c: Code, m: Id, w: Json, fuel: nat, env: Env)
    requires BuilderInv(arena, providers, delayed, compile, pairs, {}) && (c, m) in pairs && fuel > 0
    requires forall m :: m in delayed && delayed[m].Some? ==> Slot(m) in slots && slots[Slot(m)] == compile[m]
    requires Agree(InT(pairs), InterpSub(slots, fuel - 1, env, providers), ValidSub(arena, fuel - 1, env, providers))
    ensures Interp(c, slots, w, fuel, env, providers) == Valid(arena, m, w, fuel, env, providers)
  {
    var body := PairBody(arena, providers, delayed, compile, pairs, slots, c, m);
    PairRuns(arena, providers, slots, pairs, c, m, w, fuel, env, body);
  }

  /** Without fuel, code and node both diverge. */
  lemma NoFuelAgrees(arena: seq<Schema<Id>>, pairs: set<(Code, Id)>, slots: map<Slot, Schema<Code>>, env: Env, providers: seq<Provider>)
    ensures Agree(InT(pairs), InterpSub(slots, 0, env, providers), ValidSub(arena, 0, env, providers))
  {
  }

  /** The body emitted code runs: its own inlined body, or the body its slot is assigned. */
  lemma PairBody(arena: seq<Schema<Id>>, providers: seq<Provider>, delayed: map<Id, Option<Slot>>,
                 compile: map<Id, Schema<Code>>, pairs: set<(Code, Id)>, slots: map<Slot, Schema<Code>>, c: Code, m: Id)
    returns (body: Schema<Code>)
    requires BuilderInv(arena, providers, delayed, compile, pairs, {}) && (c, m) in pairs
    requires forall m :: m in delayed && delayed[m].Some? ==> Slot(m) in slots && slots[Slot(m)] == compile[m]
    ensures m < |arena| && ((c.Inline? && body == c.body) || (c.CallSlot? && c.slot in slots && slots[c.slot] == body))
    ensures Corresponds(body, arena[m], InT(pairs), providers)
  {
    assert PairOk(arena, (c, m), pairs, Slotted(delayed), providers);
    body := if c.Inline? then c.body else compile[m];
  }

  /** One step: code whose body corresponds to its node runs as the node, once the references agree one level down. */
  lemma PairRuns(arena: seq<Schema<Id>>, providers: seq<Provider>, slots: map<Slot, Schema<Code>>, pairs: set<(Code, Id)>,
                 c: Code, m: Id, w: Json, fuel: nat, env: Env, body: Schema<Code>)
    requires fuel > 0 && m < |arena|
    requires (c.Inline? && body == c.body) || (c.CallSlot? && c.slot in slots && slots[c.slot] == body)
    requires Corresponds(body, arena[m], InT(pairs), providers)
    requires Agree(InT(pairs), InterpSub(slots, fuel - 1, env, providers), ValidSub(arena, fuel - 1, env, providers))
    ensures Interp(c, slots, w, fuel, env, providers) == Valid(arena, m, w, fuel, env, providers)
  {
    BodyCongruence(body, arena[m], w, InT(pairs), InterpSub(slots, fuel - 1, env, providers), ValidSub(arena, fuel - 1, env, providers), env, providers);
  }

  /** The ids of an arena of the given size. */
  function AllIds(size: nat): (s: set<Id>)
    ensures forall m: Id :: m in s <==> m < size
  {
    if size == 0 then {}
    else
      var s := AllIds(size - 1) + {size - 1};
      assert forall m: Id :: m in s <==> m in AllIds(size - 1) || m == size - 1;
      s
  }

  function SkipAll(xs: seq<Id>): (cs: seq<Code>)
    ensures |cs| == |xs|
  {
    seq(|xs|, i requires 0 <= i < |xs| => Skipped)
  }

  function SkipOpt(o: Option<Id>): (c: Option<Code>)
    ensures c.Some? <==> o.Some?
  {
    if o.Some? then Some(Skipped) else None
  }

  function SkipEntries(es: seq<(string, Id)>): (cs: seq<(string, Code)>)
    ensures |cs| == |es| && forall i :: 0 <= i < |es| ==> cs[i].0 == es[i].0
  {
    seq(|es|, i requires 0 <= i < |es| => (es[i].0, Skipped))
  }

  /** Some node of the graph has a dependency value of a shape the compiler does not support. */
  ghost predicate UnsupportedDependency(arena: seq<Schema<Id>>)
  {
    exists m, i :: 0 <= m < |arena| && 0 <= i < |arena[m].subs.dependencies| && arena[m].subs.dependencies[i].1.OtherValue?
  }

  /** The name of the base64 content encoding. */
  const Base64Encoding: string := "base64"

  /**
   * The content builder converts the value to a string while the tree is
   * built, which throws, whenever a content keyword is set and the encoding
   * is absent or base64; any other encoding gives no check.
   */
  predicate ContentThrows(a: Attributes)
  {
    (a.contentEncoding.Some? || a.contentMediaType.Some?) &&
    (a.contentEncoding.None? || a.contentEncoding.value == Base64Encoding)
  }

  /**
   * The string-length builders convert the value to a string, and the
   * property-count builders compare an int count with a long bound; each
   * throws while the tree is built.
   */
  predicate LengthOrCountThrows(a: Attributes)
  {
    a.maximumLength.Some? || a.maximumProperties.Some? || a.minimumLength.Some? || a.minimumProperties.Some?
  }

  /** The pattern builder converts the value to a string, which throws while the tree is built. */
  predicate PatternThrows(a: Attributes)
  {
    a.pattern.Some?
  }

  /** A node whose keyword builders throw while its body is built. */
  predicate BuilderThrows(a: Attributes)
  {
    ContentThrows(a) || LengthOrCountThrows(a) || PatternThrows(a)
  }

  /** Some node of the graph has a keyword whose builder throws. */
  ghost predicate UnbuildableNode(arena: seq<Schema<Id>>)
  {
    exists m :: 0 <= m < |arena| && BuilderThrows(arena[m].attrs)
  }

  /**
   * The faults compilation can end with: not supported for an unsupported
   * dependency value, invalid operation for a keyword whose builder throws.
   */
  ghost predicate BuildFault(arena: seq<Schema<Id>>, f: Fault)
  {
    (f == NotSupported && UnsupportedDependency(arena)) || (f == InvalidOperation && UnbuildableNode(arena))
  }

  /** An unsupported dependency of one node is an unsupported dependency of the graph. */
  lemma UnsupportedAt(arena: seq<Schema<Id>>, n: Id)
    requires n < |arena| && exists i :: 0 <= i < |arena[n].subs.dependencies| && arena[n].subs.dependencies[i].1.OtherValue?
    ensures UnsupportedDependency(arena)
  {
    var i :| 0 <= i < |arena[n].subs.dependencies| && arena[n].subs.dependencies[i].1.OtherValue?;
    assert arena[n].subs.dependencies[i].1.OtherValue?;
  }

  /**
   * The compiler's two tables: delayed holds the nodes whose body is being
   * built (with the slot allocated once the body recursed into the node),
   * compile the finished bodies of nodes with a slot.
   */
  class ExpressionBuilder {
    const arena: seq<Schema<Id>>
    const providers: seq<Provider>
    var delayed: map<Id, Option<Slot>>
    var compile: map<Id, Schema<Code>>
    /** The code emitted so far, with the node each piece was emitted for. */
    ghost var pairs: set<(Code, Id)>

    ghost predicate Consistent(active: set<Id>)
      reads this
    {
      BuilderInv(arena, providers, delayed, compile, pairs, active)
    }

    /** The current state extends the given earlier one. */
    ghost predicate Since(d0: map<Id, Option<Slot>>, c0: map<Id, Schema<Code>>, p0: set<(Code, Id)>)
      reads this
    {
      Extends(d0, c0, p0, delayed, compile, pairs)
    }

    constructor(arena: seq<Schema<Id>>, providers: seq<Provider>)
      requires WellFormed(arena)
      ensures this.arena == arena && this.providers == providers
      ensures delayed == map[] && compile == map[] && Consistent({})
    {
      this.arena := arena;
      this.providers := providers;
      delayed := map[];
      compile := map[];
      pairs := {};
    }

    /**
     * Compiles node n. Re-entering a node whose body is in progress allocates
     * its slot (once) and emits a call through it; otherwise the body is
     * built, stored when the node recursed, and the delayed entry of a node
     * that never recursed is removed.
     */
    method Eval(n: Id, ghost active: set<Id>) returns (r: Result<Code, Fault>)
      requires Consistent(active) && n < |arena|
      modifies this
      ensures Since(old(delayed), old(compile), old(pairs))
      ensures r.Success? ==> Consistent(active) && (r.value, n) in pairs
      ensures r.Failure? ==> BuildFault(arena, r.error)
      ensures old(n !in delayed) && BuilderThrows(arena[n].attrs) ==> r.Failure?
      ensures old(n in delayed) ==>
        r == Success(CallSlot(Slot(n))) && delayed == old(delayed)[n := Some(Slot(n))] && compile == old(compile)
      ensures old(n !in delayed) && r.Success? ==>
        (r.value == CallSlot(Slot(n)) && delayed[n] == Some(Slot(n)) && n in compile) ||
        (r.value == Inline(n, r.value.body) && n !in delayed && n !in compile)
      decreases AllIds(|arena|) - delayed.Keys, 0
    {
      if n in delayed {
        var c := Reenter(n, active);
        return Success(c);
      }
      ghost var d0, c0, p0 := delayed, compile, pairs;
      delayed := delayed[n := None];
      ghost var d1 := delayed;
      assert Extends(d0, c0, p0, d1, c0, p0);
      assert AllIds(|arena|) - d1.Keys < AllIds(|arena|) - d0.Keys by {
        assert n in AllIds(|arena|) - d0.Keys;
      }
      var rb := EvalBody(n, active + {n}, d1, c0, p0);
      ExtendsTrans(d0, c0, p0, d1, c0, p0, delayed, compile, pairs);
      if rb.Failure? {
        return Failure(rb.error);
      }
      var body := rb.value;
      assert n !in compile;
      if delayed[n].Some? {
        var c := StoreBody(n, body, active, d0, c0, p0);
        return Success(c);
      }
      var c := InlineBody(n, body, active, d0, c0, p0);
      return Success(c);
    }

    /** A node met again while its body is in progress: its slot is allocated (once) and the call goes through it. */
    method Reenter(n: Id, ghost active: set<Id>) returns (c: Code)
      requires Consistent(active) && n in delayed
      modifies this
      ensures c == CallSlot(Slot(n)) && (c, n) in pairs && Consistent(active)
      ensures delayed == old(delayed)[n := Some(Slot(n))] && compile == old(compile) && pairs == old(pairs) + {(c, n)}
      ensures Since(old(delayed), old(compile), old(pairs))
    {
      SlotKeepsInv(arena, providers, delayed, compile, pairs, active, n);
      c := CallSlot(Slot(n));
      delayed := delayed[n := Some(Slot(n))];
      pairs := pairs + {(c, n)};
    }

    /** A node that recursed: its finished body is stored for its slot, and the call goes through the slot. */
    method StoreBody(n: Id, body: Schema<Code>, ghost active: set<Id>,
                     ghost d0: map<Id, Option<Slot>>, ghost c0: map<Id, Schema<Code>>, ghost p0: set<(Code, Id)>) returns (c: Code)
      requires Consistent(active + {n}) && n !in active && n in delayed && delayed[n].Some?
      requires Corresponds(body, arena[n], InT(pairs), providers)
      requires n !in d0 && n !in c0 && n !in compile && Since(d0, c0, p0)
      modifies this
      ensures c == CallSlot(Slot(n)) && (c, n) in pairs && n in compile
      ensures delayed == old(delayed) && compile == old(compile)[n := body] && pairs == old(pairs) + {(c, n)}
      ensures Consistent(active) && Since(d0, c0, p0)
    {
      StoreKeepsInv(arena, providers, delayed, compile, pairs, active, n, body);
      c := CallSlot(Slot(n));
      ExtendsStep(d0, c0, p0, delayed, compile, pairs, delayed, compile[n := body], pairs + {(c, n)}, n);
      compile := compile[n := body];
      pairs := pairs + {(c, n)};
    }

    /** A node that never recursed: its delayed entry is removed and its body inlined. */
    method InlineBody(n: Id, body: Schema<Code>, ghost active: set<Id>,
                      ghost d0: map<Id, Option<Slot>>, ghost c0: map<Id, Schema<Code>>, ghost p0: set<(Code, Id)>) returns (c: Code)
      requires Consistent(active + {n}) && n !in active && n in delayed && delayed[n].None?
      requires Corresponds(body, arena[n], InT(pairs), providers)
      requires n !in d0 && n !in c0 && n !in compile && Since(d0, c0, p0)
      modifies this
      ensures c == Inline(n, body) && (c, n) in pairs && n !in delayed && n !in compile
      ensures delayed == old(delayed) - {n} && compile == old(compile) && pairs == old(pairs) + {(c, n)}
      ensures Consistent(active) && Since(d0, c0, p0)
    {
      InlineKeepsInv(arena, providers, delayed, compile, pairs, active, n, body);
      c := Inline(n, body);
      ExtendsStep(d0, c0, p0, delayed, compile, pairs, delayed - {n}, compile, pairs + {(c, n)}, n);
      delayed := delayed - {n};
      pairs := pairs + {(c, n)};
    }

    /** The codes for a list of references, evaluated in order; the first failure stops the list. */
    method EvalList(xs: seq<Id>, ghost active: set<Id>,
                    ghost d0: map<Id, Option<Slot>>, ghost c0: map<Id, Schema<Code>>, ghost p0: set<(Code, Id)>)
      returns (r: Result<seq<Code>, Fault>)
      requires Consistent(active) && AllBelow(xs, |arena|) && Since(d0, c0, p0)
      modifies this
      ensures Since(d0, c0, p0) && old(pairs) <= pairs
      ensures r.Success? ==> Consistent(active) && |r.value| == |xs| && EmittedAll(r.value, xs, pairs)
      ensures r.Failure? ==> BuildFault(arena, r.error)
      decreases AllIds(|arena|) - d0.Keys, 1
    {
      var cs: seq<Code> := [];
      var i := 0;
      while i < |xs|
        invariant 0 <= i <= |xs| && |cs| == i
        invariant Consistent(active) && Since(d0, c0, p0) && old(pairs) <= pairs
        invariant EmittedAll(cs, xs, pairs)
      {
        ghost var dA, cA, pA := delayed, compile, pairs;
        assert d0.Keys <= delayed.Keys;
        var c := Eval(xs[i], active);
        ExtendsTrans(d0, c0, p0, dA, cA, pA, delayed, compile, pairs);
        if c.Failure? {
          return Failure(c.error);
        }
        assert (c.value, xs[i]) in pairs;
        EmittedSnoc(cs, xs, pA, pairs, c.value);
        cs := cs + [c.value];
        i := i + 1;
      }
      return Success(cs);
    }

    /** The code for an optional reference; an absent reference stays absent. */
    method EvalOpt(o: Option<Id>, ghost active: set<Id>,
                   ghost d0: map<Id, Option<Slot>>, ghost c0: map<Id, Schema<Code>>, ghost p0: set<(Code, Id)>)
      returns (r: Result<Option<Code>, Fault>)
      requires Consistent(active) && OptBelow(o, |arena|) && Since(d0, c0, p0)
      modifies this
      ensures Since(d0, c0, p0) && old(pairs) <= pairs
      ensures r.Success? ==> Consistent(active) && EmittedOpt(r.value, o, pairs)
      ensures r.Failure? ==> BuildFault(arena, r.error)
      decreases AllIds(|arena|) - d0.Keys, 1
    {
      if o.None? {
        return Success(None);
      }
      var c := Eval(o.value, active);
      ExtendsTrans(d0, c0, p0, old(delayed), old(compile), old(pairs), delayed, compile, pairs);
      if c.Failure? {
        return Failure(c.error);
      }
      return Success(Some(c.value));
    }

    /** The codes for the values of a keyed table, in table order; keys are kept. */
    method EvalEntries(es: seq<(string, Id)>, ghost active: set<Id>,
                       ghost d0: map<Id, Option<Slot>>, ghost c0: map<Id, Schema<Code>>, ghost p0: set<(Code, Id)>)
      returns (r: Result<seq<(string, Code)>, Fault>)
      requires Consistent(active) && EntriesBelow(es, |arena|) && Since(d0, c0, p0)
      modifies this
      ensures Since(d0, c0, p0) && old(pairs) <= pairs
      ensures r.Success? ==> Consistent(active) && |r.value| == |es| && EmittedEntries(r.value, es, pairs)
      ensures r.Failure? ==> BuildFault(arena, r.error)
      decreases AllIds(|arena|) - d0.Keys, 1
    {
      var cs: seq<(string, Code)> := [];
      var i := 0;
      while i < |es|
        invariant 0 <= i <= |es| && |cs| == i
        invariant Consistent(active) && Since(d0, c0, p0) && old(pairs) <= pairs
        invariant EmittedEntries(cs, es, pairs)
      {
        ghost var dA, cA, pA := delayed, compile, pairs;
        var c := Eval(es[i].1, active);
        ExtendsTrans(d0, c0, p0, dA, cA, pA, delayed, compile, pairs);
        if c.Failure? {
          return Failure(c.error);
        }
        EntriesSnoc(cs, es, pA, pairs, c.value);
        cs := cs + [(es[i].0, c.value)];
        i := i + 1;
      }
      return Success(cs);
    }

    /**
     * The dependencies table: a list of names stays as it is, a schema
     * becomes its code, and a value of any other shape is not supported.
     */
    method EvalDeps(ds: seq<(string, DepValue<Id>)>, ghost active: set<Id>,
                    ghost d0: map<Id, Option<Slot>>, ghost c0: map<Id, Schema<Code>>, ghost p0: set<(Code, Id)>)
      returns (r: Result<seq<(string, DepValue<Code>)>, Fault>)
      requires Consistent(active) && DepsBelow(ds, |arena|) && Since(d0, c0, p0)
      modifies this
      ensures Since(d0, c0, p0) && old(pairs) <= pairs
      ensures r.Success? ==> Consistent(active) && |r.value| == |ds| && EmittedDeps(r.value, ds, pairs)
      ensures r.Failure? ==> BuildFault(arena, r.error) || (r.error == NotSupported && exists i :: 0 <= i < |ds| && ds[i].1.OtherValue?)
      ensures (exists i :: 0 <= i < |ds| && ds[i].1.OtherValue?) ==> r.Failure?
      decreases AllIds(|arena|) - d0.Keys, 1
    {
      var cs: seq<(string, DepValue<Code>)> := [];
      var i := 0;
      while i < |ds|
        invariant 0 <= i <= |ds| && |cs| == i
        invariant Consistent(active) && Since(d0, c0, p0) && old(pairs) <= pairs
        invariant EmittedDeps(cs, ds, pairs)
      {
        match ds[i].1 {
          case Names(ns) =>
            DepsSnoc(cs, ds, pairs, pairs, Names(ns));
            cs := cs + [(ds[i].0, Names(ns))];
          case SchemaDep(m) =>
            ghost var dA, cA, pA := delayed, compile, pairs;
            var c := Eval(m, active);
            ExtendsTrans(d0, c0, p0, dA, cA, pA, delayed, compile, pairs);
            if c.Failure? {
              return Failure(c.error);
            }
            DepsSnoc(cs, ds, pA, pairs, SchemaDep(c.value));
            cs := cs + [(ds[i].0, SchemaDep(c.value))];
          case OtherValue =>
            return Failure(NotSupported);
        }
        i := i + 1;
      }
      return Success(cs);
    }

    /**
     * The items links: in single-schema mode only the first item schema is
     * compiled; in positional mode every item schema, and the additional
     * items schema when additional items are allowed; otherwise none.
     */
    method EvalItems(n: Id, ghost active: set<Id>,
                     ghost d0: map<Id, Option<Slot>>, ghost c0: map<Id, Schema<Code>>, ghost p0: set<(Code, Id)>)
      returns (r: Result<(seq<Code>, Option<Code>), Fault>)
      requires Consistent(active) && n < |arena| && Since(d0, c0, p0)
      modifies this
      ensures Since(d0, c0, p0) && old(pairs) <= pairs
      ensures r.Success? ==> Consistent(active) && ItemsEmitted(r.value.0, r.value.1, arena[n], pairs)
      ensures r.Failure? ==> BuildFault(arena, r.error)
      decreases AllIds(|arena|) - d0.Keys, 2
    {
      var s, a := arena[n].subs, arena[n].attrs;
      assert LinksBelow(s, |arena|);
      if !a.itemsPositionValidation && |s.items| > 0 {
        var c := Eval(s.items[0], active);
        ExtendsTrans(d0, c0, p0, old(delayed), old(compile), old(pairs), delayed, compile, pairs);
        if c.Failure? {
          return Failure(c.error);
        }
        return Success(([c.value] + SkipAll(s.items[1..]), SkipOpt(s.additionalItems)));
      } else if a.itemsPositionValidation {
        var cs :- EvalList(s.items, active, d0, c0, p0);
        ghost var p1 := pairs;
        if !a.allowAdditionalItems {
          return Success((cs, SkipOpt(s.additionalItems)));
        }
        var add :- EvalOpt(s.additionalItems, active, d0, c0, p0);
        EmittedAllGrows(cs, s.items, p1, pairs);
        return Success((cs, add));
      }
      return Success((SkipAll(s.items), SkipOpt(s.additionalItems)));
    }

    /** The conditional links: if, then and else are compiled, in that order, only when if is present. */
    method EvalConditional(n: Id, ghost active: set<Id>,
                           ghost d0: map<Id, Option<Slot>>, ghost c0: map<Id, Schema<Code>>, ghost p0: set<(Code, Id)>)
      returns (r: Result<(Option<Code>, Option<Code>, Option<Code>), Fault>)
      requires Consistent(active) && n < |arena| && Since(d0, c0, p0)
      modifies this
      ensures Since(d0, c0, p0) && old(pairs) <= pairs
      ensures r.Success? ==> Consistent(active) && CondEmitted(r.value.0, r.value.1, r.value.2, arena[n].subs, pairs)
      ensures r.Failure? ==> BuildFault(arena, r.error)
      decreases AllIds(|arena|) - d0.Keys, 2
    {
      var s := arena[n].subs;
      assert LinksBelow(s, |arena|);
      if s.ifSchema.None? {
        return Success((None, SkipOpt(s.thenSchema), SkipOpt(s.elseSchema)));
      }
      var i :- EvalOpt(s.ifSchema, active, d0, c0, p0);
      ghost var p1 := pairs;
      var t :- EvalOpt(s.thenSchema, active, d0, c0, p0);
      ghost var p2 := pairs;
      var e :- EvalOpt(s.elseSchema, active, d0, c0, p0);
      assert p1 <= pairs;
      return Success((i, t, e));
    }

    /** The allOf, anyOf and contains links, compiled in that order. */
    method EvalLogicLinks(n: Id, ghost active: set<Id>,
                          ghost d0: map<Id, Option<Slot>>, ghost c0: map<Id, Schema<Code>>, ghost p0: set<(Code, Id)>)
      returns (r: Result<(seq<Code>, seq<Code>, Option<Code>), Fault>)
      requires Consistent(active) && n < |arena| && Since(d0, c0, p0)
      modifies this
      ensures Since(d0, c0, p0) && old(pairs) <= pairs
      ensures r.Success? ==> Consistent(active) && LogicEmitted(r.value, arena[n].subs, pairs)
      ensures r.Failure? ==> BuildFault(arena, r.error)
      decreases AllIds(|arena|) - d0.Keys, 2
    {
      var s := arena[n].subs;
      assert LinksBelow(s, |arena|);
      var allOf :- EvalList(s.allOf, active, d0, c0, p0);
      ghost var p1 := pairs;
      var anyOf :- EvalList(s.anyOf, active, d0, c0, p0);
      ghost var p2 := pairs;
      var contains :- EvalOpt(s.contains, active, d0, c0, p0);
      EmittedAllGrows(allOf, s.allOf, p1, pairs);
      EmittedAllGrows(anyOf, s.anyOf, p2, pairs);
      return Success((allOf, anyOf, contains));
    }

    /** The items, not and conditional links, compiled in that order. */
    method EvalShapeLinks(n: Id, ghost active: set<Id>,
                          ghost d0: map<Id, Option<Slot>>, ghost c0: map<Id, Schema<Code>>, ghost p0: set<(Code, Id)>)
      returns (r: Result<((seq<Code>, Option<Code>), Option<Code>, (Option<Code>, Option<Code>, Option<Code>)), Fault>)
      requires Consistent(active) && n < |arena| && Since(d0, c0, p0)
      modifies this
      ensures Since(d0, c0, p0) && old(pairs) <= pairs
      ensures r.Success? ==> Consistent(active) && ShapeEmitted(r.value, arena[n], pairs)
      ensures r.Failure? ==> BuildFault(arena, r.error)
      ensures LengthOrCountThrows(arena[n].attrs) || PatternThrows(arena[n].attrs) ==> r.Failure?
      decreases AllIds(|arena|) - d0.Keys, 3
    {
      var s, a := arena[n].subs, arena[n].attrs;
      assert LinksBelow(s, |arena|);
      var items :- EvalItems(n, active, d0, c0, p0);
      // the length and property-count builders run after items and before not
      if LengthOrCountThrows(a) {
        assert BuilderThrows(arena[n].attrs);
        return Failure(InvalidOperation);
      }
      ghost var p1 := pairs;
      var notSchema :- EvalOpt(s.notSchema, active, d0, c0, p0);
      // the pattern builder runs after not and before the conditional
      if PatternThrows(a) {
        assert BuilderThrows(arena[n].attrs);
        return Failure(InvalidOperation);
      }
      ghost var p2 := pairs;
      var cond :- EvalConditional(n, active, d0, c0, p0);
      ItemsEmittedGrows(items.0, items.1, arena[n], p1, pairs);
      assert p2 <= pairs;
      return Success((items, notSchema, cond));
    }

    /**
     * The links the keyword builders consult, compiled in the order the
     * builders run: allOf, anyOf, contains, dependencies, items, not and
     * the conditional. The links only providers consult are left skipped.
     */
    method EvalKeywordLinks(n: Id, ghost active: set<Id>,
                            ghost d0: map<Id, Option<Slot>>, ghost c0: map<Id, Schema<Code>>, ghost p0: set<(Code, Id)>)
      returns (r: Result<Subschemas<Code>, Fault>)
      requires Consistent(active) && n < |arena| && Since(d0, c0, p0)
      modifies this
      ensures Since(d0, c0, p0) && old(pairs) <= pairs
      ensures r.Success? ==> Consistent(active) && KeywordsEmitted(r.value, arena[n], pairs) && ProviderShape(r.value, arena[n].subs)
      ensures r.Failure? ==> BuildFault(arena, r.error)
      ensures BuilderThrows(arena[n].attrs) ==> r.Failure?
      decreases AllIds(|arena|) - d0.Keys, 4
    {
      var s := arena[n].subs;
      assert LinksBelow(s, |arena|);
      var logic :- EvalLogicLinks(n, active, d0, c0, p0);
      // the content builder runs after contains and before dependencies
      if ContentThrows(arena[n].attrs) {
        assert BuilderThrows(arena[n].attrs);
        return Failure(InvalidOperation);
      }
      ghost var p1 := pairs;
      var rd := EvalDeps(s.dependencies, active, d0, c0, p0);
      if rd.Failure? {
        if !BuildFault(arena, rd.error) {
          UnsupportedAt(arena, n);
        }
        return Failure(rd.error);
      }
      var deps := rd.value;
      ghost var p2 := pairs;
      var shape :- EvalShapeLinks(n, active, d0, c0, p0);
      LogicEmittedGrows(logic, s, p1, pairs);
      EmittedDepsGrows(deps, s.dependencies, p2, pairs);
      var bs := Subschemas(
        allOf := logic.0, anyOf := logic.1, oneOf := SkipAll(s.oneOf),
        notSchema := shape.1, contains := logic.2,
        ifSchema := shape.2.0, thenSchema := shape.2.1, elseSchema := shape.2.2,
        items := shape.0.0, additionalItems := shape.0.1,
        properties := SkipEntries(s.properties), patternProperties := SkipEntries(s.patternProperties),
        additionalProperties := SkipOpt(s.additionalProperties),
        dependencies := deps);
      return Success(bs);
    }

    /**
     * The properties provider's links: properties, pattern properties and,
     * when additional properties are allowed, the additional properties
     * schema, compiled in that order.
     */
    method EvalPropertyLinks(n: Id, ghost active: set<Id>,
                             ghost d0: map<Id, Option<Slot>>, ghost c0: map<Id, Schema<Code>>, ghost p0: set<(Code, Id)>)
      returns (r: Result<(seq<(string, Code)>, seq<(string, Code)>, Option<Code>), Fault>)
      requires Consistent(active) && n < |arena| && Since(d0, c0, p0)
      modifies this
      ensures Since(d0, c0, p0) && old(pairs) <= pairs
      ensures r.Success? ==> Consistent(active) && PropertyEmitted(r.value, arena[n], pairs)
      ensures r.Failure? ==> BuildFault(arena, r.error)
      decreases AllIds(|arena|) - d0.Keys, 2
    {
      var s, a := arena[n].subs, arena[n].attrs;
      assert LinksBelow(s, |arena|);
      var props :- EvalEntries(s.properties, active, d0, c0, p0);
      ghost var p1 := pairs;
      var patterns :- EvalEntries(s.patternProperties, active, d0, c0, p0);
      ghost var p2 := pairs;
      var add := SkipOpt(s.additionalProperties);
      if a.allowAdditionalProperties {
        add :- EvalOpt(s.additionalProperties, active, d0, c0, p0);
      }
      EmittedEntriesGrows(props, s.properties, p1, pairs);
      EmittedEntriesGrows(patterns, s.patternProperties, p2, pairs);
      return Success((props, patterns, add));
    }

    /** The links one provider consults, compiled into the body built so far. */
    method EvalProvider(n: Id, p: Provider, cur: Subschemas<Code>, ghost done: seq<Provider>, ghost active: set<Id>,
                        ghost d0: map<Id, Option<Slot>>, ghost c0: map<Id, Schema<Code>>, ghost p0: set<(Code, Id)>)
      returns (r: Result<Subschemas<Code>, Fault>)
      requires Consistent(active) && n < |arena| && Since(d0, c0, p0) && ProvidersEmitted(cur, arena[n], pairs, done)
      modifies this
      ensures Since(d0, c0, p0) && old(pairs) <= pairs
      ensures r.Success? ==> Consistent(active) && ProvidersEmitted(r.value, arena[n], pairs, done + [p])
      ensures r.Success? ==>
        r.value == cur.(oneOf := r.value.oneOf, properties := r.value.properties,
                        patternProperties := r.value.patternProperties, additionalProperties := r.value.additionalProperties)
      ensures r.Failure? ==> BuildFault(arena, r.error)
      decreases AllIds(|arena|) - d0.Keys, 3
    {
      ghost var pA := pairs;
      match p {
        case PropertiesProvider =>
          var t :- EvalPropertyLinks(n, active, d0, c0, p0);
          ProvidersEmittedGrows(cur, arena[n], pA, pairs, done);
          return Success(cur.(properties := t.0, patternProperties := t.1, additionalProperties := t.2));
        case OneOfProvider =>
          assert LinksBelow(arena[n].subs, |arena|);
          var oneOf :- EvalList(arena[n].subs.oneOf, active, d0, c0, p0);
          ProvidersEmittedGrows(cur, arena[n], pA, pairs, done);
          return Success(cur.(oneOf := oneOf));
      }
    }

    /**
     * The links the providers consult, compiled provider by provider in the
     * order they are listed. A provider listed twice compiles its links twice.
     */
    method EvalProviderLinks(n: Id, ks: Subschemas<Code>, ghost active: set<Id>,
                             ghost d0: map<Id, Option<Slot>>, ghost c0: map<Id, Schema<Code>>, ghost p0: set<(Code, Id)>)
      returns (r: Result<Subschemas<Code>, Fault>)
      requires Consistent(active) && n < |arena| && Since(d0, c0, p0) && ProviderShape(ks, arena[n].subs)
      modifies this
      ensures Since(d0, c0, p0) && old(pairs) <= pairs
      ensures r.Success? ==> Consistent(active) && ProvidersEmitted(r.value, arena[n], pairs, providers)
      ensures r.Success? ==>
        r.value == ks.(oneOf := r.value.oneOf, properties := r.value.properties,
                       patternProperties := r.value.patternProperties, additionalProperties := r.value.additionalProperties)
      ensures r.Failure? ==> BuildFault(arena, r.error)
      decreases AllIds(|arena|) - d0.Keys, 4
    {
      var cur := ks;
      var i := 0;
      ghost var done: seq<Provider> := [];
      while i < |providers|
        invariant 0 <= i <= |providers| && done == providers[..i]
        invariant Consistent(active) && Since(d0, c0, p0) && old(pairs) <= pairs
        invariant ProvidersEmitted(cur, arena[n], pairs, done)
        invariant cur == ks.(oneOf := cur.oneOf, properties := cur.properties,
                             patternProperties := cur.patternProperties, additionalProperties := cur.additionalProperties)
      {
        cur :- EvalProvider(n, providers[i], cur, done, active, d0, c0, p0);
        done := done + [providers[i]];
        i := i + 1;
      }
      assert done == providers;
      return Success(cur);
    }

    /** The body of node n, whose delayed entry is in place: the keyword links, then the provider links. */
    method EvalBody(n: Id, ghost active: set<Id>,
                    ghost d0: map<Id, Option<Slot>>, ghost c0: map<Id, Schema<Code>>, ghost p0: set<(Code, Id)>)
      returns (r: Result<Schema<Code>, Fault>)
      requires Consistent(active) && n < |arena| && n in d0 && Since(d0, c0, p0)
      modifies this
      ensures Since(d0, c0, p0)
      ensures r.Success? ==> Consistent(active) && Corresponds(r.value, arena[n], InT(pairs), providers)
      ensures r.Failure? ==> BuildFault(arena, r.error)
      ensures BuilderThrows(arena[n].attrs) ==> r.Failure?
      decreases AllIds(|arena|) - d0.Keys, 5
    {
      var ks :- EvalKeywordLinks(n, active, d0, c0, p0);
      ghost var p1 := pairs;
      var bs :- EvalProviderLinks(n, ks, active, d0, c0, p0);
      BodyAssembled(ks, bs, arena[n], p1, pairs, providers);
      return Success(Schema(arena[n].attrs, bs));
    }

    /**
     * Compiles node n into a program: the code for n, preceded by one
     * assignment for every slot allocated so far, each slot taking the
     * stored body of its node. The program validates exactly as the node
     * does, at every fuel.
     */
    method Build(n: Id) returns (r: Result<Program, Fault>)
      requires Consistent({}) && n < |arena|
      modifies this
      ensures Since(old(delayed), old(compile), old(pairs))
      ensures r.Success? ==> Consistent({})
      ensures r.Success? ==> forall m :: Slot(m) in r.value.assignments <==> m in delayed && delayed[m].Some?
      ensures r.Success? ==> forall v, fuel, env ::
        Execute(r.value, v, fuel, env, providers) == Valid(arena, n, v, fuel, env, providers)
      ensures r.Failure? ==> BuildFault(arena, r.error)
      ensures old(n !in delayed) && BuilderThrows(arena[n].attrs) ==> r.Failure?
    {
      var e :- Eval(n, {});
      var slots := Assignments(delayed, compile);
      forall fuel: nat, env: Env
        ensures Agree(InT(pairs), InterpSub(slots, fuel, env, providers), ValidSub(arena, fuel, env, providers))
      {
        PairsRunAsNodes(arena, providers, delayed, compile, pairs, slots, fuel, env);
      }
      r := Success(Program(slots, e));
      forall v, fuel: nat, env: Env
        ensures Execute(r.value, v, fuel, env, providers) == Valid(arena, n, v, fuel, env, providers)
      {
        PairsRunAsNodes(arena, providers, delayed, compile, pairs, slots, fuel, env);
        assert InterpSub(slots, fuel, env, providers)(e, v) == ValidSub(arena, fuel, env, providers)(n, v);
      }
    }
  }
}
