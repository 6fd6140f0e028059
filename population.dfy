/**
 * Population of entities from the `model.configuration` mappings: the
 * populator (impl/EntityPopulatorImpl.java), the association binder
 * (property/binding/impl/AssociationPropertyBinder.java), the creator of
 * associated instances (property/association/AssociationCreator.java) and the
 * custom and simple binders. They call each other down the mapping tree; each
 * call works on a nested mapping, or on the same mapping one step further
 * along binder, creator, populator.
 */
module Population {
  import opened Wrappers
  import opened RawData
  import opened Metadata
  import opened Coercion
  import opened Policies
  import opened Entities
  import opened ModelConfiguration
  import opened Binding

  /** How AssociationPropertyBinder binds a property, by its meta-property. */
  datatype AssociationBinding = OneToOneBinding | ManyToOneBinding | OneToManyBinding | NoBinding

  /** Embedded properties are bound as one-to-one whatever their cardinality; many-to-many is not bound. */
  function AssociationBindingOf(p: MetaProperty): (r: AssociationBinding)
    ensures p.embedded ==> r == OneToOneBinding
    ensures !p.embedded ==> (r == ManyToOneBinding <==> p.cardinality == MANY_TO_ONE)
    ensures !p.embedded ==> (r == OneToOneBinding <==> p.cardinality == ONE_TO_ONE)
    ensures !p.embedded ==> (r == OneToManyBinding <==> p.cardinality == ONE_TO_MANY)
    ensures r == NoBinding <==> !p.embedded && p.cardinality in {NONE, MANY_TO_MANY}
  {
    if p.embedded then OneToOneBinding
    else match p.cardinality
      case MANY_TO_ONE => ManyToOneBinding
      case ONE_TO_ONE => OneToOneBinding
      case ONE_TO_MANY => OneToManyBinding
      case _ => NoBinding
  }

  /**
   * `loadEntity`: no lookup for an embedded property, nor when the nested
   * mappings give no lookup values; otherwise the store is queried by them.
   */
  function LoadEntity(ports: Ports, formats: Formats, ownerClass: string, m: PropertyMapping,
                      source: ImportedObject): (r: Option<EntityId>)
    ensures ports.metamodel(ownerClass, m.propertyName).embedded ==> r.None?
    ensures var p := ports.metamodel(ownerClass, m.propertyName);
      var values := PropertyValues(ports, formats, p.rangeClass, m.propertyMappings, source);
      !p.embedded && |values| > 0 ==> r == ports.load(p.rangeClass, values)
  {
    var p := ports.metamodel(ownerClass, m.propertyName);
    if p.embedded then None
    else
      var values := PropertyValues(ports, formats, p.rangeClass, m.propertyMappings, source);
      if |values| == 0 then None else ports.load(p.rangeClass, values)
  }

  /** An association whose nested mappings are all associations is never looked up. */
  lemma NoSimpleNestedMappingNoLookup(ports: Ports, formats: Formats, ownerClass: string, m: PropertyMapping,
                                      source: ImportedObject)
    requires forall i :: 0 <= i < |m.propertyMappings| ==> m.propertyMappings[i].isAssociation
    ensures LoadEntity(ports, formats, ownerClass, m, source).None?
  {
    var p := ports.metamodel(ownerClass, m.propertyName);
    var values := PropertyValues(ports, formats, p.rangeClass, m.propertyMappings, source);
    if |values| > 0 {
      var k :| k in values;
      PropertyValuesKeys(ports, formats, p.rangeClass, m.propertyMappings, source, k);
    }
  }

  /** `createEmptyCollection`: an ArrayList for a List property, a LinkedHashSet for a Set property, else null. */
  function EmptyCollection(t: JavaType): (r: Option<CollectionKind>)
    ensures r == Some(ListKind) <==> t == ListType
    ensures r == Some(SetKind) <==> t == SetType
  {
    if t == ListType then Some(ListKind) else if t == SetType then Some(SetKind) else None
  }

  predicate Distinct(s: seq<EntityId>)
  {
    forall i, j :: 0 <= i < j < |s| ==> s[i] != s[j]
  }

  /** `Collection.add`: a list always appends, a set appends only an absent element. */
  function CollectionAdd(kind: CollectionKind, members: seq<EntityId>, e: EntityId): (r: seq<EntityId>)
    ensures e in r && |members| <= |r| <= |members| + 1 && r[..|members|] == members
    ensures kind == ListKind ==> r == members + [e]
    ensures kind == SetKind ==> (e in members <==> r == members)
  {
    if kind == SetKind && e in members then members else members + [e]
  }

  /** `Collection.addAll`: the elements added one by one, in order. */
  function CollectionAddAll(kind: CollectionKind, members: seq<EntityId>, es: seq<EntityId>): (r: seq<EntityId>)
    ensures members <= r
    ensures kind == ListKind ==> r == members + es
    ensures forall e :: e in r ==> e in members || e in es
    decreases |es|
  {
    if |es| == 0 then members
    else
      var r := CollectionAddAll(kind, CollectionAdd(kind, members, es[0]), es[1..]);
      assert kind == ListKind ==> r == members + [es[0]] + es[1..] && [es[0]] + es[1..] == es;
      r
  }

  /** A set never takes a second copy of an element. */
  lemma {:induction false} SetAddAllKeepsDistinct(members: seq<EntityId>, es: seq<EntityId>)
    requires Distinct(members)
    ensures Distinct(CollectionAddAll(SetKind, members, es))
    ensures forall e :: e in es ==> e in CollectionAddAll(SetKind, members, es)
    decreases |es|
  {
    if |es| > 0 {
      var next := CollectionAdd(SetKind, members, es[0]);
      assert Distinct(next);
      SetAddAllKeepsDistinct(next, es[1..]);
      assert forall e :: e in es ==> e == es[0] || e in es[1..];
    }
  }

  /** The pool a context receives in the pool overload of `populateProperties`: only association mappings get one. */
  function PoolOf(pools: map<PropertyMapping, seq<EntityId>>, m: PropertyMapping): (r: Option<seq<EntityId>>)
    ensures !m.isAssociation ==> r.None?
    ensures m.isAssociation ==> r == (if m in pools then Some(pools[m]) else None)
  {
    if m.isAssociation && m in pools then Some(pools[m]) else None
  }

  /** `Collection.addAll` with one more element is one more `add`. */
  lemma {:induction false} CollectionAddAllSnoc(kind: CollectionKind, members: seq<EntityId>, es: seq<EntityId>, e: EntityId)
    ensures CollectionAddAll(kind, members, es + [e]) == CollectionAdd(kind, CollectionAddAll(kind, members, es), e)
    decreases |es|
  {
    if |es| == 0 {
      assert es + [e] == [e] && [e][1..] == [];
    } else {
      assert (es + [e])[0] == es[0] && (es + [e])[1..] == es[1..] + [e];
      CollectionAddAllSnoc(kind, CollectionAdd(kind, members, es[0]), es[1..], e);
    }
  }

  /** The custom and the simple binder bind a value; only an association mapping goes to the association binder. */
  predicate BindsValue(m: PropertyMapping)
  {
    GetPropertyBinder(m) != AssociationPropertyBinder
  }

  /** The value the custom or the simple binder stores for a mapping whose context reads `ctxSource`. */
  function BoundValue(ports: Ports, formats: Formats, ownerClass: string, m: PropertyMapping, ctxSource: ImportedObject): Value
  {
    var raw := ContextRawValue(m, ctxSource);
    if m.customValueFunction.Some? then ports.customValue(m.customValueFunction.value, raw, ctxSource)
    else SimpleValue(ports, formats, ownerClass, m, raw)
  }

  /** No later mapping of the sequence names the property of the `i`-th. */
  predicate LastOfName(ms: seq<PropertyMapping>, i: nat)
    requires i < |ms|
  {
    forall j :: i < j < |ms| ==> ms[j].propertyName != ms[i].propertyName
  }

  /** The property names the mappings bind. */
  function MappingNames(ms: seq<PropertyMapping>): set<string>
  {
    if |ms| == 0 then {} else MappingNames(ms[..|ms| - 1]) + {ms[|ms| - 1].propertyName}
  }

  /**
   * The instance holds, in every property that a custom or simple mapping
   * binds last, the value that mapping binds; each mapping's context reads the
   * object its field names, or `source` itself.
   */
  ghost predicate CarriesValues(ports: Ports, formats: Formats, ownerClass: string, ms: seq<PropertyMapping>,
                                source: ImportedObject, heap: map<EntityId, Entity>, entity: EntityId)
  {
    forall i :: 0 <= i < |ms| && BindsValue(ms[i]) && LastOfName(ms, i) ==>
      PropertyOf(heap, entity, ms[i].propertyName) == BoundValue(ports, formats, ownerClass, ms[i], ContextSource(ms[i], source))
  }

  /** Some call of the duplicate finder answers with `x`. */
  ghost predicate Findable(ports: Ports, x: EntityId)
  {
    exists heap, pool, values :: ports.find(heap, pool, values) == Some(x)
  }

  /** Every instance of the set is one the duplicate finder can hand back. */
  ghost predicate FoundByFinder(ports: Ports, reused: set<EntityId>)
  {
    forall x :: x in reused ==> Findable(ports, x)
  }

  /** Every instance that existed before and is not `writable` is unchanged. */
  ghost predicate WritesOnly(before: map<EntityId, Entity>, after: map<EntityId, Entity>, writable: set<EntityId>)
  {
    forall x :: x in before && x !in writable ==> x in after && after[x] == before[x]
  }

  /** The instance's properties outside `names` read as before. */
  ghost predicate OwnerKeeps(before: map<EntityId, Entity>, after: map<EntityId, Entity>, owner: EntityId, names: set<string>)
  {
    forall n :: n !in names ==> PropertyOf(after, owner, n) == PropertyOf(before, owner, n)
  }

  /**
   * The frame of binding one property of `entity`: instances only accumulate;
   * apart from `entity`, only instances that the duplicate finder handed back
   * (`reused`) were written, besides the new ones; and unless `entity` itself
   * was handed back, only its property `name` changed.
   */
  ghost predicate Framed(ports: Ports, before: map<EntityId, Entity>, after: map<EntityId, Entity>,
                         entity: EntityId, name: string, reused: set<EntityId>)
  {
    Grows(before, after) && FoundByFinder(ports, reused) && WritesOnly(before, after, {entity} + reused) &&
    (entity !in reused ==> OwnerKeeps(before, after, entity, {name}))
  }

  /**
   * What `bindOneToOneAssociation` and `bindManyToOneAssociation` leave
   * behind: the stored instance found, or under CREATE an instance from the
   * pool or a new one of the property's class, which carries the nested
   * mappings' values unless the finder handed it back.
   */
  ghost predicate ToOneBound(ports: Ports, formats: Formats, p: MetaProperty, loaded: Option<EntityId>, m: PropertyMapping,
                             ctxSource: ImportedObject, pool: seq<EntityId>,
                             before: map<EntityId, Entity>, after: map<EntityId, Entity>, entity: EntityId, reused: set<EntityId>)
    requires entity in before
  {
    var name := m.propertyName;
    (loaded.Some? ==> after == WithProperty(before, entity, name, EntityRef(loaded.value))) &&
    (loaded.None? && m.referenceEntityPolicy != Some(CreateEntity) ==> after == before) &&
    (loaded.None? && m.referenceEntityPolicy == Some(CreateEntity) ==>
       var v := PropertyOf(after, entity, name);
       v.EntityRef? && v.id in after &&
       (v.id in before ==> v.id in pool && v.id in reused) &&
       (v.id !in before ==> after[v.id].isNew && after[v.id].metaClass == p.rangeClass) &&
       (v.id !in reused ==>
          CarriesValues(ports, formats, after[v.id].metaClass, m.propertyMappings, ctxSource, after, v.id)))
  }

  /**
   * How a to-many collection grew: by one instance, from the collection or
   * new, for an object; by the distinct new instances built from a list, one
   * per object at most and at least one for a non-empty list; by nothing for
   * any other raw value.
   */
  ghost predicate MembersAdded(kind: CollectionKind, base: seq<EntityId>, raw: Value, members: seq<EntityId>,
                               added: seq<EntityId>, before: map<EntityId, Entity>)
  {
    (raw.Object? ==>
       |added| == 1 && members == CollectionAdd(kind, base, added[0]) && (added[0] in base || added[0] !in before)) &&
    (raw.ObjectList? ==>
       members == CollectionAddAll(kind, base, added) && Distinct(added) && |added| <= |raw.objects| &&
       (|raw.objects| > 0 ==> |added| > 0) && (forall a :: a in added ==> a !in before)) &&
    (!raw.Object? && !raw.ObjectList? ==> members == base)
  }

  /** What `bindOneToManyAssociation` leaves behind. */
  ghost predicate ToManyBound(p: MetaProperty, m: PropertyMapping, ctxSource: ImportedObject,
                              before: map<EntityId, Entity>, after: map<EntityId, Entity>, entity: EntityId)
    requires entity in before
  {
    (m.referenceEntityPolicy != Some(CreateEntity) ==> after == before) &&
    (m.referenceEntityPolicy == Some(CreateEntity) ==>
       var current := PropertyOf(before, entity, m.propertyName);
       var v := PropertyOf(after, entity, m.propertyName);
       var empty := EmptyCollection(p.javaType);
       var base := if current.Collection? then current.members else [];
       (v == Null <==> !current.Collection? && empty.None?) &&
       (v == Null ==> after == WithProperty(before, entity, m.propertyName, Null)) &&
       (v != Null ==>
          v.Collection? && v.kind == (if current.Collection? then current.kind else empty.value) &&
          (forall e :: e in v.members ==> e in after || e in base) &&
          exists added :: MembersAdded(v.kind, base, ContextRawValue(m, ctxSource), v.members, added, before)))
  }

  /** The outcome of the association binder, by the property's embedding and cardinality. */
  ghost predicate AssociationOutcome(ports: Ports, formats: Formats, ownerClass: string, m: PropertyMapping,
                                     ctxSource: ImportedObject, pool: Option<seq<EntityId>>,
                                     before: map<EntityId, Entity>, after: map<EntityId, Entity>, entity: EntityId,
                                     reused: set<EntityId>)
    requires entity in before
  {
    var p := ports.metamodel(ownerClass, m.propertyName);
    var loaded := LoadEntity(ports, formats, ownerClass, m, ctxSource);
    match AssociationBindingOf(p)
    case NoBinding => after == before
    case OneToOneBinding => ToOneBound(ports, formats, p, loaded, m, ctxSource, [], before, after, entity, reused)
    case ManyToOneBinding =>
      ToOneBound(ports, formats, p, loaded, m, ctxSource, if pool.Some? then pool.value else [], before, after, entity, reused)
    case OneToManyBinding => ToManyBound(p, m, ctxSource, before, after, entity)
  }

  /**
   * One mapping bound on `entity`, from a context of the owner class whose
   * source is `ctxSource` and whose pool is `pool`: the custom and simple
   * binders store the value they compute and change nothing else; the
   * association binder leaves the outcome above.
   */
  ghost predicate MappingStep(ports: Ports, formats: Formats, ownerClass: string, m: PropertyMapping,
                              ctxSource: ImportedObject, pool: Option<seq<EntityId>>,
                              before: map<EntityId, Entity>, after: map<EntityId, Entity>, entity: EntityId,
                              reused: set<EntityId>)
    requires entity in before
  {
    Framed(ports, before, after, entity, m.propertyName, reused) &&
    (BindsValue(m) ==>
       after == WithProperty(before, entity, m.propertyName, BoundValue(ports, formats, ownerClass, m, ctxSource))) &&
    (!BindsValue(m) ==> AssociationOutcome(ports, formats, ownerClass, m, ctxSource, pool, before, after, entity, reused))
  }

  /** The pool each mapping's context carries: none in the plain overloads, PoolOf in the pool overload. */
  function ContextPool(pools: Option<map<PropertyMapping, seq<EntityId>>>, m: PropertyMapping): Option<seq<EntityId>>
  {
    if pools.Some? then PoolOf(pools.value, m) else None
  }

  /** A trace of the mappings applied one after another: `states[k]` before the `k`-th, `steps[k]` the instances it reused. */
  ghost predicate Applied(ports: Ports, formats: Formats, ownerClass: string, ms: seq<PropertyMapping>,
                          source: ImportedObject, pools: Option<map<PropertyMapping, seq<EntityId>>>, entity: EntityId,
                          states: seq<map<EntityId, Entity>>, steps: seq<set<EntityId>>)
  {
    |states| == |ms| + 1 && |steps| == |ms| &&
    forall k {:trigger steps[k]} :: 0 <= k < |ms| ==>
      entity in states[k] &&
      MappingStep(ports, formats, ownerClass, ms[k], ContextSource(ms[k], source), ContextPool(pools, ms[k]),
                  states[k], states[k + 1], entity, steps[k])
  }

  /**
   * A whole population of `entity` by the mappings `ms`: a trace of one step
   * per mapping from `before` to `after`; only `entity`, new instances and
   * instances the finder handed back were written; and unless the finder
   * handed `entity` back, it carries every value its custom and simple
   * mappings bind last and keeps every property no mapping names.
   */
  ghost predicate Populated(ports: Ports, formats: Formats, ownerClass: string, ms: seq<PropertyMapping>,
                            source: ImportedObject, pools: Option<map<PropertyMapping, seq<EntityId>>>, entity: EntityId,
                            before: map<EntityId, Entity>, after: map<EntityId, Entity>,
                            states: seq<map<EntityId, Entity>>, steps: seq<set<EntityId>>, reused: set<EntityId>)
  {
    Applied(ports, formats, ownerClass, ms, source, pools, entity, states, steps) &&
    states[0] == before && states[|ms|] == after &&
    (forall k :: 0 <= k < |ms| ==> steps[k] <= reused) &&
    Grows(before, after) && FoundByFinder(ports, reused) && WritesOnly(before, after, {entity} + reused) &&
    (entity !in reused ==>
       CarriesValues(ports, formats, ownerClass, ms, source, after, entity) &&
       OwnerKeeps(before, after, entity, MappingNames(ms)))
  }

  lemma WritesOnlyTrans(a: map<EntityId, Entity>, b: map<EntityId, Entity>, c: map<EntityId, Entity>,
                        s1: set<EntityId>, s2: set<EntityId>, extra: set<EntityId>)
    requires WritesOnly(a, b, s1) && WritesOnly(b, c, extra + s2)
    requires forall x :: x in extra ==> x !in a || x in s1
    ensures WritesOnly(a, c, s1 + s2)
  {
  }

  lemma CarriesValuesFrame(ports: Ports, formats: Formats, ownerClass: string, ms: seq<PropertyMapping>,
                           source: ImportedObject, h1: map<EntityId, Entity>, h2: map<EntityId, Entity>, x: EntityId)
    requires x in h1 && x in h2 && h1[x] == h2[x]
    requires CarriesValues(ports, formats, ownerClass, ms, source, h1, x)
    ensures CarriesValues(ports, formats, ownerClass, ms, source, h2, x)
  {
  }

  /** A trace grows by the step of its next mapping. */
  lemma AppliedSnoc(ports: Ports, formats: Formats, ownerClass: string, ms: seq<PropertyMapping>,
                    source: ImportedObject, pools: Option<map<PropertyMapping, seq<EntityId>>>, entity: EntityId,
                    states: seq<map<EntityId, Entity>>, steps: seq<set<EntityId>>, i: nat,
                    after: map<EntityId, Entity>, r: set<EntityId>)
    requires i < |ms| && Applied(ports, formats, ownerClass, ms[..i], source, pools, entity, states, steps)
    requires entity in states[i]
    requires MappingStep(ports, formats, ownerClass, ms[i], ContextSource(ms[i], source), ContextPool(pools, ms[i]),
                         states[i], after, entity, r)
    ensures Applied(ports, formats, ownerClass, ms[..i + 1], source, pools, entity, states + [after], steps + [r])
  {
    var ms' := ms[..i + 1];
    var states' := states + [after];
    var steps' := steps + [r];
    forall k | 0 <= k < i + 1
      ensures entity in states'[k] &&
        MappingStep(ports, formats, ownerClass, ms'[k], ContextSource(ms'[k], source), ContextPool(pools, ms'[k]),
                    states'[k], states'[k + 1], entity, steps'[k])
    {
      if k < i {
        assert ms'[k] == ms[..i][k] && states'[k] == states[k] && states'[k + 1] == states[k + 1] && steps'[k] == steps[k];
      } else {
        assert ms'[k] == ms[i] && states'[k] == states[i] && states'[k + 1] == after && steps'[k] == r;
      }
    }
  }

  /** The last mapping of a sequence bound on top of the values of the ones before it. */
  lemma CarriesStep(ports: Ports, formats: Formats, ownerClass: string, ms: seq<PropertyMapping>,
                    source: ImportedObject, before: map<EntityId, Entity>, after: map<EntityId, Entity>, entity: EntityId)
    requires |ms| > 0 && entity in before
    requires CarriesValues(ports, formats, ownerClass, ms[..|ms| - 1], source, before, entity)
    requires OwnerKeeps(before, after, entity, {ms[|ms| - 1].propertyName})
    requires BindsValue(ms[|ms| - 1]) ==>
      after == WithProperty(before, entity, ms[|ms| - 1].propertyName,
                            BoundValue(ports, formats, ownerClass, ms[|ms| - 1], ContextSource(ms[|ms| - 1], source)))
    ensures CarriesValues(ports, formats, ownerClass, ms, source, after, entity)
  {
    var n := |ms| - 1;
    forall i | 0 <= i < |ms| && BindsValue(ms[i]) && LastOfName(ms, i)
      ensures PropertyOf(after, entity, ms[i].propertyName) ==
        BoundValue(ports, formats, ownerClass, ms[i], ContextSource(ms[i], source))
    {
      if i < n {
        assert ms[..n][i] == ms[i];
        assert LastOfName(ms[..n], i);
        assert ms[i].propertyName != ms[n].propertyName;
      }
    }
  }

  /** The first `n` mappings bound to `entity`, from `start` to `cur`: what the populating loop keeps. */
  ghost predicate BoundPrefix(ports: Ports, formats: Formats, ms: seq<PropertyMapping>, n: nat, source: ImportedObject,
                              pools: Option<map<PropertyMapping, seq<EntityId>>>, entity: EntityId,
                              start: map<EntityId, Entity>, cur: map<EntityId, Entity>,
                              states: seq<map<EntityId, Entity>>, steps: seq<set<EntityId>>, reused: set<EntityId>)
  {
    n <= |ms| && entity in start &&
    Applied(ports, formats, start[entity].metaClass, ms[..n], source, pools, entity, states, steps) &&
    states[0] == start && states[n] == cur && entity in cur &&
    (forall k :: 0 <= k < n ==> steps[k] <= reused) &&
    Grows(start, cur) && FoundByFinder(ports, reused) && WritesOnly(start, cur, {entity} + reused)
  }

  /** One more mapping bound on top of a prefix. */
  lemma BoundPrefixStep(ports: Ports, formats: Formats, ms: seq<PropertyMapping>, n: nat, source: ImportedObject,
                        pools: Option<map<PropertyMapping, seq<EntityId>>>, entity: EntityId,
                        start: map<EntityId, Entity>, cur: map<EntityId, Entity>, after: map<EntityId, Entity>,
                        states: seq<map<EntityId, Entity>>, steps: seq<set<EntityId>>, reused: set<EntityId>,
                        r: set<EntityId>)
    requires n < |ms| && BoundPrefix(ports, formats, ms, n, source, pools, entity, start, cur, states, steps, reused)
    requires MappingStep(ports, formats, cur[entity].metaClass, ms[n], ContextSource(ms[n], source), ContextPool(pools, ms[n]),
                         cur, after, entity, r)
    ensures BoundPrefix(ports, formats, ms, n + 1, source, pools, entity, start, after,
                        states + [after], steps + [r], reused + r)
  {
    AppliedSnoc(ports, formats, start[entity].metaClass, ms, source, pools, entity, states, steps, n, after, r);
    WritesOnlyTrans(start, cur, after, {entity} + reused, r, {entity});
    var steps' := steps + [r];
    forall k | 0 <= k < n + 1
      ensures steps'[k] <= reused + r
    {
      if k < n {
        assert steps'[k] == steps[k];
      }
    }
  }

  /** The facts a populating loop keeps, gathered into a whole population. */
  lemma PopulatedByTrace(ports: Ports, formats: Formats, ownerClass: string, ms: seq<PropertyMapping>,
                         source: ImportedObject, pools: Option<map<PropertyMapping, seq<EntityId>>>, entity: EntityId,
                         before: map<EntityId, Entity>, after: map<EntityId, Entity>,
                         states: seq<map<EntityId, Entity>>, steps: seq<set<EntityId>>, reused: set<EntityId>)
    requires Applied(ports, formats, ownerClass, ms, source, pools, entity, states, steps)
    requires states[0] == before && states[|ms|] == after
    requires forall k :: 0 <= k < |ms| ==> steps[k] <= reused
    requires Grows(before, after) && FoundByFinder(ports, reused) && WritesOnly(before, after, {entity} + reused)
    ensures Populated(ports, formats, ownerClass, ms, source, pools, entity, before, after, states, steps, reused)
  {
    if entity !in reused {
      AppliedEffects(ports, formats, ownerClass, ms, source, pools, entity, states, steps);
    }
  }

  /**
   * What a trace adds up to when the finder never handed `entity` back: the
   * last custom or simple mapping of each name decides that property, and
   * properties no mapping names are untouched.
   */
  lemma {:induction false} AppliedEffects(ports: Ports, formats: Formats, ownerClass: string, ms: seq<PropertyMapping>,
                                          source: ImportedObject, pools: Option<map<PropertyMapping, seq<EntityId>>>,
                                          entity: EntityId, states: seq<map<EntityId, Entity>>, steps: seq<set<EntityId>>)
    requires Applied(ports, formats, ownerClass, ms, source, pools, entity, states, steps)
    requires forall k :: 0 <= k < |ms| ==> entity !in steps[k]
    ensures CarriesValues(ports, formats, ownerClass, ms, source, states[|ms|], entity)
    ensures OwnerKeeps(states[0], states[|ms|], entity, MappingNames(ms))
  {
    if |ms| > 0 {
      var n := |ms| - 1;
      var ms0, states0, steps0 := ms[..n], states[..n + 1], steps[..n];
      assert Applied(ports, formats, ownerClass, ms0, source, pools, entity, states0, steps0) by {
        forall k | 0 <= k < n
          ensures entity in states0[k] &&
            MappingStep(ports, formats, ownerClass, ms0[k], ContextSource(ms0[k], source), ContextPool(pools, ms0[k]),
                        states0[k], states0[k + 1], entity, steps0[k])
        {
          assert ms0[k] == ms[k] && states0[k] == states[k] && states0[k + 1] == states[k + 1] && steps0[k] == steps[k];
        }
      }
      AppliedEffects(ports, formats, ownerClass, ms0, source, pools, entity, states0, steps0);
      assert states0[n] == states[n] && states0[0] == states[0];
      var last := ms[n];
      assert entity in states[n] && entity !in steps[n];
      assert MappingStep(ports, formats, ownerClass, last, ContextSource(last, source), ContextPool(pools, last),
                         states[n], states[n + 1], entity, steps[n]);
      CarriesStep(ports, formats, ownerClass, ms, source, states[n], states[n + 1], entity);
      assert MappingNames(ms) == MappingNames(ms0) + {last.propertyName};
    }
  }

  /**
   * One turn of the populating loops: a context for the mapping against the
   * source, carrying the mapping's pool in the pool overload, and the mapping
   * bound through it.
   */
  method BindMapping(ports: Ports, heap: EntityHeap, entity: EntityId, config: ImportConfiguration,
                     source: ImportedObject, m: PropertyMapping, pools: Option<map<PropertyMapping, seq<EntityId>>>)
    returns (ghost reused: set<EntityId>)
    requires heap.Valid() && entity in heap.entities && FindsInPool(ports)
    modifies heap
    ensures heap.Valid()
    ensures MappingStep(ports, config.Formats(), old(heap.entities)[entity].metaClass, m, ContextSource(m, source),
                        ContextPool(pools, m), old(heap.entities), heap.entities, entity, reused)
    decreases m, 10
  {
    var ctx := CreateContext(heap, entity, config, source, m);
    if pools.Some? && m.isAssociation {
      ctx.SetCreatedAssociations(PoolOf(pools.value, m));
    }
    reused := PopulateProperty(ports, heap, entity, ctx);
  }

  /** `populateAssociation`: the nested mappings applied to the given instance, which is returned. */
  /**
   * The loop shared by `populateProperties` and `populateAssociation`: every
   * mapping bound to `entity` in order, each by a context of its own.
   */
  method BindMappings(ports: Ports, heap: EntityHeap, entity: EntityId, config: ImportConfiguration,
                      source: ImportedObject, ms: seq<PropertyMapping>, pools: Option<map<PropertyMapping, seq<EntityId>>>)
    returns (ghost states: seq<map<EntityId, Entity>>, ghost steps: seq<set<EntityId>>, ghost reused: set<EntityId>)
    requires heap.Valid() && entity in heap.entities && FindsInPool(ports)
    modifies heap
    ensures heap.Valid()
    ensures Populated(ports, config.Formats(), old(heap.entities)[entity].metaClass, ms, source, pools, entity,
                      old(heap.entities), heap.entities, states, steps, reused)
    decreases ms, 12
  {
    ghost var start := heap.entities;
    states, steps, reused := [heap.entities], [], {};
    var i := 0;
    while i < |ms|
      invariant heap.Valid() && i <= |ms|
      invariant BoundPrefix(ports, config.Formats(), ms, i, source, pools, entity, start, heap.entities, states, steps, reused)
    {
      states, steps, reused := BindNext(ports, heap, entity, config, source, ms, i, pools, start, states, steps, reused);
      i := i + 1;
    }
    assert ms[..i] == ms;
    PopulatedByTrace(ports, config.Formats(), start[entity].metaClass, ms, source, pools, entity, start, heap.entities,
                     states, steps, reused);
  }

  /** One round of the loop of `BindMappings`: the `i`-th mapping bound on top of the prefix. */
  method BindNext(ports: Ports, heap: EntityHeap, entity: EntityId, config: ImportConfiguration, source: ImportedObject,
                  ms: seq<PropertyMapping>, i: nat, pools: Option<map<PropertyMapping, seq<EntityId>>>,
                  ghost start: map<EntityId, Entity>, ghost states: seq<map<EntityId, Entity>>,
                  ghost steps: seq<set<EntityId>>, ghost reused: set<EntityId>)
    returns (ghost states': seq<map<EntityId, Entity>>, ghost steps': seq<set<EntityId>>, ghost reused': set<EntityId>)
    requires heap.Valid() && FindsInPool(ports) && i < |ms|
    requires BoundPrefix(ports, config.Formats(), ms, i, source, pools, entity, start, heap.entities, states, steps, reused)
    modifies heap
    ensures heap.Valid()
    ensures BoundPrefix(ports, config.Formats(), ms, i + 1, source, pools, entity, start, heap.entities, states', steps', reused')
    decreases ms, 11
  {
    ghost var before := heap.entities;
    var r := BindMapping(ports, heap, entity, config, source, ms[i], pools);
    BoundPrefixStep(ports, config.Formats(), ms, i, source, pools, entity, start, before, heap.entities,
                    states, steps, reused, r);
    states', steps', reused' := states + [heap.entities], steps + [r], reused + r;
  }

  method PopulateAssociation(ports: Ports, heap: EntityHeap, entity: EntityId, association: PropertyMapping,
                             config: ImportConfiguration, source: ImportedObject)
    returns (r: EntityId, ghost states: seq<map<EntityId, Entity>>, ghost steps: seq<set<EntityId>>,
             ghost reused: set<EntityId>)
    requires heap.Valid() && entity in heap.entities && FindsInPool(ports)
    modifies heap
    ensures heap.Valid() && r == entity
    ensures Populated(ports, config.Formats(), old(heap.entities)[entity].metaClass, association.propertyMappings,
                      source, None, entity, old(heap.entities), heap.entities, states, steps, reused)
    decreases association, 0
  {
    states, steps, reused := BindMappings(ports, heap, entity, config, source, association.propertyMappings, None);
    r := entity;
  }

  /**
   * `populateProperty`: the binder chosen for the mapping binds it. The custom
   * binder stores the function's value, the simple binder the coerced raw
   * value, and the association binder leaves its outcome.
   */
  method PopulateProperty(ports: Ports, heap: EntityHeap, entity: EntityId, ctx: PropertyBindingContext)
    returns (ghost reused: set<EntityId>)
    requires heap.Valid() && entity in heap.entities && FindsInPool(ports)
    requires ctx.ownerEntityMetaClass.Some?
    modifies heap, ctx`sourceObject
    ensures heap.Valid()
    ensures MappingStep(ports, ctx.importConfiguration.Formats(), ctx.ownerEntityMetaClass.value, ctx.propertyMapping,
                        old(ctx.sourceObject), ctx.createdAssociations, old(heap.entities), heap.entities, entity, reused)
    decreases ctx.propertyMapping, 9
  {
    var m := ctx.propertyMapping;
    reused := {};
    match GetPropertyBinder(m)
    case CustomValuePropertyBinder =>
      var value := ports.customValue(m.customValueFunction.value, ctx.GetRawValue(), ctx.sourceObject);
      heap.SetValue(entity, m.propertyName, value);
    case SimplePropertyBinder =>
      var value := SimpleValue(ports, ctx.importConfiguration.Formats(), ctx.ownerEntityMetaClass.value, m, ctx.GetRawValue());
      heap.SetValue(entity, m.propertyName, value);
    case AssociationPropertyBinder =>
      reused := BindAssociation(ports, heap, entity, ctx);
  }

  /** AssociationPropertyBinder.bindProperty: dispatch on embedding and cardinality. */
  method BindAssociation(ports: Ports, heap: EntityHeap, entity: EntityId, ctx: PropertyBindingContext)
    returns (ghost reused: set<EntityId>)
    requires heap.Valid() && entity in heap.entities && FindsInPool(ports)
    requires ctx.ownerEntityMetaClass.Some?
    modifies heap, ctx`sourceObject
    ensures heap.Valid()
    ensures Framed(ports, old(heap.entities), heap.entities, entity, ctx.propertyMapping.propertyName, reused)
    ensures AssociationOutcome(ports, ctx.importConfiguration.Formats(), ctx.ownerEntityMetaClass.value, ctx.propertyMapping,
                               old(ctx.sourceObject), ctx.createdAssociations, old(heap.entities), heap.entities, entity, reused)
    decreases ctx.propertyMapping, 8
  {
    reused := {};
    match AssociationBindingOf(ctx.GetAssociationMetaProperty(ports.metamodel))
    case OneToOneBinding => reused := BindOneToOneAssociation(ports, heap, entity, ctx);
    case ManyToOneBinding => reused := BindManyToOneAssociation(ports, heap, entity, ctx);
    case OneToManyBinding => reused := BindOneToManyAssociation(ports, heap, entity, ctx);
    case NoBinding =>
  }

  /** `loadEntity` on the context's current state. */
  method LoadEntityOf(ports: Ports, ctx: PropertyBindingContext) returns (r: Option<EntityId>)
    requires ctx.ownerEntityMetaClass.Some?
    ensures r == LoadEntity(ports, ctx.importConfiguration.Formats(), ctx.ownerEntityMetaClass.value,
                            ctx.propertyMapping, ctx.sourceObject)
  {
    var p := ctx.GetAssociationMetaProperty(ports.metamodel);
    if p.embedded {
      r := None;
    } else {
      var values := GetPropertyValues(ports, ctx);
      r := if |values| == 0 then None else ports.load(p.rangeClass, values);
    }
  }

  /** A to-one binding under CREATE: what setting the owner's property to the created or reused instance leaves behind. */
  lemma ToOneCreated(ports: Ports, formats: Formats, p: MetaProperty, loaded: Option<EntityId>, m: PropertyMapping,
                     ctxSource: ImportedObject, pool: seq<EntityId>, before: map<EntityId, Entity>,
                     mid: map<EntityId, Entity>, after: map<EntityId, Entity>, entity: EntityId, created: EntityId,
                     r: set<EntityId>, reused: set<EntityId>)
    requires entity in before && loaded.None? && m.referenceEntityPolicy == Some(CreateEntity)
    requires Grows(before, mid) && created in mid
    requires created in before ==> created in pool && Findable(ports, created)
    requires created !in before ==> mid[created].isNew && mid[created].metaClass == p.rangeClass
    requires FoundByFinder(ports, r) && WritesOnly(before, mid, {created} + r)
    requires created !in r ==>
      CarriesValues(ports, formats, mid[created].metaClass, m.propertyMappings, ctxSource, mid, created)
    requires entity in mid && after == WithProperty(mid, entity, m.propertyName, EntityRef(created))
    requires reused == if created in before then r + {created} else r
    ensures Framed(ports, before, after, entity, m.propertyName, reused)
    ensures ToOneBound(ports, formats, p, loaded, m, ctxSource, pool, before, after, entity, reused)
  {
    assert entity != created ==> after[created] == mid[created];
    if created !in reused {
      CarriesValuesFrame(ports, formats, mid[created].metaClass, m.propertyMappings, ctxSource, mid, after, created);
    }
    if entity !in reused {
      assert mid[entity] == before[entity];
    }
  }

  /**
   * `bindOneToOneAssociation`: a stored instance if one is found; else, under
   * CREATE, a new one; the property is set only when something was resolved.
   */
  method BindOneToOneAssociation(ports: Ports, heap: EntityHeap, entity: EntityId, ctx: PropertyBindingContext)
    returns (ghost reused: set<EntityId>)
    requires heap.Valid() && entity in heap.entities && FindsInPool(ports)
    requires ctx.ownerEntityMetaClass.Some?
    modifies heap, ctx`sourceObject
    ensures heap.Valid()
    ensures Framed(ports, old(heap.entities), heap.entities, entity, ctx.propertyMapping.propertyName, reused)
    ensures var m := ctx.propertyMapping;
      var formats := ctx.importConfiguration.Formats();
      var loaded := LoadEntity(ports, formats, ctx.ownerEntityMetaClass.value, m, old(ctx.sourceObject));
      ToOneBound(ports, formats, ctx.GetAssociationMetaProperty(ports.metamodel), loaded, m, old(ctx.sourceObject), [],
                 old(heap.entities), heap.entities, entity, reused)
    decreases ctx.propertyMapping, 7
  {
    var m := ctx.propertyMapping;
    var loaded := LoadEntityOf(ports, ctx);
    reused := {};
    if loaded.Some? {
      heap.SetValue(entity, m.propertyName, EntityRef(loaded.value));
    } else if m.referenceEntityPolicy == Some(CreateEntity) {
      var created, r := CreateOneToOneAssociation(ports, heap, ctx);
      ghost var mid := heap.entities;
      heap.SetValue(entity, m.propertyName, EntityRef(created));
      reused := r;
      ToOneCreated(ports, ctx.importConfiguration.Formats(), ctx.GetAssociationMetaProperty(ports.metamodel), loaded, m,
                   ctx.sourceObject, [], old(heap.entities), mid, heap.entities, entity, created, r, reused);
    }
  }

  /** `bindManyToOneAssociation`: as one-to-one, but creation may reuse an instance from the context's pool. */
  method BindManyToOneAssociation(ports: Ports, heap: EntityHeap, entity: EntityId, ctx: PropertyBindingContext)
    returns (ghost reused: set<EntityId>)
    requires heap.Valid() && entity in heap.entities && FindsInPool(ports)
    requires ctx.ownerEntityMetaClass.Some?
    modifies heap, ctx`sourceObject
    ensures heap.Valid()
    ensures Framed(ports, old(heap.entities), heap.entities, entity, ctx.propertyMapping.propertyName, reused)
    ensures var m := ctx.propertyMapping;
      var formats := ctx.importConfiguration.Formats();
      var loaded := LoadEntity(ports, formats, ctx.ownerEntityMetaClass.value, m, old(ctx.sourceObject));
      var pool := if ctx.createdAssociations.Some? then ctx.createdAssociations.value else [];
      ToOneBound(ports, formats, ctx.GetAssociationMetaProperty(ports.metamodel), loaded, m, old(ctx.sourceObject), pool,
                 old(heap.entities), heap.entities, entity, reused)
    decreases ctx.propertyMapping, 7
  {
    var m := ctx.propertyMapping;
    var loaded := LoadEntityOf(ports, ctx);
    reused := {};
    if loaded.Some? {
      heap.SetValue(entity, m.propertyName, EntityRef(loaded.value));
    } else if m.referenceEntityPolicy == Some(CreateEntity) {
      reused := BindCreatedManyToOne(ports, heap, entity, ctx);
    }
  }

  /** The CREATE branch of `bindManyToOneAssociation`: an instance from the pool or a new one is assigned. */
  method BindCreatedManyToOne(ports: Ports, heap: EntityHeap, entity: EntityId, ctx: PropertyBindingContext)
    returns (ghost reused: set<EntityId>)
    requires heap.Valid() && entity in heap.entities && FindsInPool(ports)
    requires ctx.ownerEntityMetaClass.Some? && ctx.propertyMapping.referenceEntityPolicy == Some(CreateEntity)
    modifies heap, ctx`sourceObject
    ensures heap.Valid() && ctx.sourceObject == old(ctx.sourceObject)
    ensures Framed(ports, old(heap.entities), heap.entities, entity, ctx.propertyMapping.propertyName, reused)
    ensures ToOneBound(ports, ctx.importConfiguration.Formats(), ctx.GetAssociationMetaProperty(ports.metamodel), None,
                       ctx.propertyMapping, ctx.sourceObject,
                       if ctx.createdAssociations.Some? then ctx.createdAssociations.value else [],
                       old(heap.entities), heap.entities, entity, reused)
    decreases ctx.propertyMapping, 6
  {
    var m := ctx.propertyMapping;
    var created, r := CreateManyToOneAssociation(ports, heap, ctx);
    ghost var mid := heap.entities;
    heap.SetValue(entity, m.propertyName, EntityRef(created));
    reused := if created in old(heap.entities) then r + {created} else r;
    ToOneCreated(ports, ctx.importConfiguration.Formats(), ctx.GetAssociationMetaProperty(ports.metamodel), None, m,
                 ctx.sourceObject, if ctx.createdAssociations.Some? then ctx.createdAssociations.value else [],
                 old(heap.entities), mid, heap.entities, entity, created, r, reused);
  }

  /** `bindOneToManyAssociation`: no lookup; under CREATE the built collection is assigned, even a null one. */
  method BindOneToManyAssociation(ports: Ports, heap: EntityHeap, entity: EntityId, ctx: PropertyBindingContext)
    returns (ghost reused: set<EntityId>)
    requires heap.Valid() && entity in heap.entities && FindsInPool(ports)
    requires ctx.ownerEntityMetaClass.Some?
    modifies heap, ctx`sourceObject
    ensures heap.Valid()
    ensures Framed(ports, old(heap.entities), heap.entities, entity, ctx.propertyMapping.propertyName, reused)
    ensures ToManyBound(ctx.GetAssociationMetaProperty(ports.metamodel), ctx.propertyMapping, old(ctx.sourceObject),
                        old(heap.entities), heap.entities, entity)
    decreases ctx.propertyMapping, 7
  {
    var m := ctx.propertyMapping;
    reused := {};
    if m.referenceEntityPolicy == Some(CreateEntity) {
      var collection, r, added := CreateOneToManyAssociation(ports, heap, entity, ctx);
      heap.SetValue(entity, m.propertyName, collection);
      reused := r;
      if collection != Null {
        var current := PropertyOf(old(heap.entities), entity, m.propertyName);
        assert MembersAdded(collection.kind, if current.Collection? then current.members else [],
                            ContextRawValue(m, old(ctx.sourceObject)), collection.members, added, old(heap.entities));
      }
    }
  }

  /** `createManyToOneAssociation`: creation against the context's pool. */
  method CreateManyToOneAssociation(ports: Ports, heap: EntityHeap, ctx: PropertyBindingContext)
    returns (e: EntityId, ghost reused: set<EntityId>)
    requires heap.Valid() && FindsInPool(ports)
    requires ctx.ownerEntityMetaClass.Some?
    modifies heap, ctx`sourceObject
    ensures heap.Valid() && Grows(old(heap.entities), heap.entities)
    ensures ctx.sourceObject == old(ctx.sourceObject)
    ensures e in heap.entities
    ensures var pool := if ctx.createdAssociations.Some? then ctx.createdAssociations.value else [];
      (e in old(heap.entities) ==> e in pool && Findable(ports, e)) &&
      (e !in old(heap.entities) ==>
         heap.entities[e].isNew && heap.entities[e].metaClass == ctx.GetAssociationMetaProperty(ports.metamodel).rangeClass)
    ensures FoundByFinder(ports, reused) && WritesOnly(old(heap.entities), heap.entities, {e} + reused)
    ensures e !in reused ==>
      CarriesValues(ports, ctx.importConfiguration.Formats(), heap.entities[e].metaClass,
                    ctx.propertyMapping.propertyMappings, ctx.sourceObject, heap.entities, e)
    decreases ctx.propertyMapping, 5
  {
    var pool := if ctx.createdAssociations.Some? then ctx.createdAssociations.value else [];
    e, reused := CreateAssociation(ports, heap, ctx, pool, None);
  }

  /** `createOneToOneAssociation`: creation without a pool, so always a new instance. */
  method CreateOneToOneAssociation(ports: Ports, heap: EntityHeap, ctx: PropertyBindingContext)
    returns (e: EntityId, ghost reused: set<EntityId>)
    requires heap.Valid() && FindsInPool(ports)
    requires ctx.ownerEntityMetaClass.Some?
    modifies heap, ctx`sourceObject
    ensures heap.Valid() && Grows(old(heap.entities), heap.entities)
    ensures ctx.sourceObject == old(ctx.sourceObject)
    ensures e in heap.entities && e !in old(heap.entities) && heap.entities[e].isNew
    ensures heap.entities[e].metaClass == ctx.GetAssociationMetaProperty(ports.metamodel).rangeClass
    ensures FoundByFinder(ports, reused) && WritesOnly(old(heap.entities), heap.entities, reused)
    ensures e !in reused ==>
      CarriesValues(ports, ctx.importConfiguration.Formats(), heap.entities[e].metaClass,
                    ctx.propertyMapping.propertyMappings, ctx.sourceObject, heap.entities, e)
    decreases ctx.propertyMapping, 5
  {
    e, reused := CreateAssociation(ports, heap, ctx, [], None);
  }

  /**
   * `createOneToManyAssociation`: the property's current collection, or a new
   * empty one of the property's collection type, extended by one instance for
   * an ImportedObject raw value and by the built instances for an
   * ImportedObjectList; null for an unsupported collection type. A current
   * value that is not a collection is treated as absent. `added` is what was
   * added; the instance for an object may be one the collection already held.
   */
  method CreateOneToManyAssociation(ports: Ports, heap: EntityHeap, owner: EntityId, ctx: PropertyBindingContext)
    returns (v: Value, ghost reused: set<EntityId>, ghost added: seq<EntityId>)
    requires heap.Valid() && owner in heap.entities && FindsInPool(ports)
    requires ctx.ownerEntityMetaClass.Some?
    modifies heap, ctx`sourceObject
    ensures heap.Valid() && Grows(old(heap.entities), heap.entities)
    ensures FoundByFinder(ports, reused) && WritesOnly(old(heap.entities), heap.entities, reused)
    ensures var current := PropertyOf(old(heap.entities), owner, ctx.propertyMapping.propertyName);
      var empty := EmptyCollection(ctx.GetAssociationMetaProperty(ports.metamodel).javaType);
      var base := if current.Collection? then current.members else [];
      (v == Null <==> !current.Collection? && empty.None?) &&
      (v == Null ==> heap.entities == old(heap.entities)) &&
      (v != Null ==> v.Collection? && (forall e :: e in v.members ==> e in heap.entities || e in base)) &&
      (current.Collection? ==> v.kind == current.kind) &&
      (!current.Collection? && empty.Some? ==> v.kind == empty.value) &&
      (v != Null ==> MembersAdded(v.kind, base, old(ctx.GetRawValue()), v.members, added, old(heap.entities)))
    decreases ctx.propertyMapping, 6
  {
    var name := ctx.propertyMapping.propertyName;
    var raw := ctx.GetRawValue();
    var current := heap.GetValue(owner, name);
    reused, added := {}, [];
    var kind: CollectionKind;
    var members: seq<EntityId>;
    if current.Collection? {
      kind, members := current.kind, current.members;
    } else {
      var empty := EmptyCollection(ctx.GetAssociationMetaProperty(ports.metamodel).javaType);
      if empty.None? {
        return Null, reused, added;
      }
      kind, members := empty.value, [];
    }
    members, reused, added := AddRawMembers(ports, heap, owner, ctx, kind, members);
    v := Collection(kind, members);
  }

  /**
   * The raw-value branches of `createOneToManyAssociation`: an object adds
   * one instance, from `base` or new; a list adds the instances
   * `createEntityCollection` built; any other raw value adds nothing.
   */
  method AddRawMembers(ports: Ports, heap: EntityHeap, owner: EntityId, ctx: PropertyBindingContext,
                       kind: CollectionKind, base: seq<EntityId>)
    returns (members: seq<EntityId>, ghost reused: set<EntityId>, ghost added: seq<EntityId>)
    requires heap.Valid() && owner in heap.entities && FindsInPool(ports)
    requires ctx.ownerEntityMetaClass.Some?
    modifies heap, ctx`sourceObject
    ensures heap.Valid() && Grows(old(heap.entities), heap.entities)
    ensures FoundByFinder(ports, reused) && WritesOnly(old(heap.entities), heap.entities, reused)
    ensures forall e :: e in members ==> e in heap.entities || e in base
    ensures MembersAdded(kind, base, old(ctx.GetRawValue()), members, added, old(heap.entities))
    decreases ctx.propertyMapping, 5
  {
    var raw := ctx.GetRawValue();
    reused, added, members := {}, [], base;
    if raw.Object? {
      var created, r := CreateAssociation(ports, heap, ctx, base, None);
      reused := if created in old(heap.entities) then r + {created} else r;
      added := [created];
      members := CollectionAdd(kind, base, created);
    } else if raw.ObjectList? {
      var created, r, chosen := CreateEntityCollection(ports, heap, owner, ctx, raw.objects);
      if |raw.objects| > 0 {
        SetAddAllKeepsDistinct([], chosen);
        assert chosen[0] in created;
      }
      reused, added := r, created;
      members := CollectionAddAll(kind, base, created);
    }
  }

  /**
   * `createAssociation`: switches the context's source to the given object,
   * reuses a pool instance the lookup values find, or else creates one of the
   * property's class, and applies the nested mappings to it. `reused` holds
   * the instances the finder handed back while the nested mappings were
   * applied.
   */
  method CreateAssociation(ports: Ports, heap: EntityHeap, ctx: PropertyBindingContext, pool: seq<EntityId>,
                           newValueSource: Option<ImportedObject>) returns (e: EntityId, ghost reused: set<EntityId>)
    requires heap.Valid() && FindsInPool(ports)
    requires ctx.ownerEntityMetaClass.Some?
    modifies heap, ctx`sourceObject
    ensures heap.Valid() && Grows(old(heap.entities), heap.entities)
    ensures ctx.sourceObject == (if newValueSource.Some? then newValueSource.value else old(ctx.sourceObject))
    ensures e in heap.entities
    ensures var p := ctx.GetAssociationMetaProperty(ports.metamodel);
      var values := PropertyValues(ports, ctx.importConfiguration.Formats(), p.rangeClass,
                                   ctx.propertyMapping.propertyMappings, ctx.sourceObject);
      var found := if |pool| == 0 then None else ports.find(old(heap.entities), pool, values);
      (found.Some? ==> e == found.value && e in pool) &&
      (found.None? ==> e !in old(heap.entities) && heap.entities[e].isNew && heap.entities[e].metaClass == p.rangeClass)
    ensures e in pool || (e !in old(heap.entities) && heap.entities[e].isNew &&
                          heap.entities[e].metaClass == ctx.GetAssociationMetaProperty(ports.metamodel).rangeClass)
    ensures e in old(heap.entities) ==> Findable(ports, e)
    ensures FoundByFinder(ports, reused) && WritesOnly(old(heap.entities), heap.entities, {e} + reused)
    ensures e !in reused ==>
      CarriesValues(ports, ctx.importConfiguration.Formats(), heap.entities[e].metaClass,
                    ctx.propertyMapping.propertyMappings, ctx.sourceObject, heap.entities, e)
    decreases ctx.propertyMapping, 1
  {
    if newValueSource.Some? {
      ctx.SetSourceObject(newValueSource.value);
    }
    var found: Option<EntityId> := None;
    if |pool| > 0 {
      var values := GetPropertyValues(ports, ctx);
      found := ports.find(heap.entities, pool, values);
      if found.Some? {
        assert ports.find(heap.entities, pool, values) == Some(found.value);
        assert Findable(ports, found.value);
      }
    }
    if found.Some? {
      e := found.value;
    } else {
      e := heap.Create(ctx.GetAssociationMetaProperty(ports.metamodel).rangeClass);
    }
    ghost var before := heap.entities;
    ghost var states, steps;
    e, states, steps, reused := PopulateAssociation(ports, heap, e, ctx.propertyMapping, ctx.importConfiguration, ctx.sourceObject);
    AssociationPopulated(ports, ctx.importConfiguration.Formats(), ctx.propertyMapping.propertyMappings, ctx.sourceObject,
                         old(heap.entities), before, heap.entities, e, states, steps, reused);
  }

  /** What `createAssociation` leaves behind once the nested mappings ran on the chosen instance. */
  lemma AssociationPopulated(ports: Ports, formats: Formats, ms: seq<PropertyMapping>, source: ImportedObject,
                             start: map<EntityId, Entity>, before: map<EntityId, Entity>, after: map<EntityId, Entity>,
                             e: EntityId, states: seq<map<EntityId, Entity>>, steps: seq<set<EntityId>>, reused: set<EntityId>)
    requires e in before && (before == start || (e !in start && before == start[e := before[e]]))
    requires Populated(ports, formats, before[e].metaClass, ms, source, None, e, before, after, states, steps, reused)
    ensures Grows(start, after) && e in after && after[e].metaClass == before[e].metaClass && after[e].isNew == before[e].isNew
    ensures FoundByFinder(ports, reused) && WritesOnly(start, after, {e} + reused)
    ensures e !in reused ==> CarriesValues(ports, formats, after[e].metaClass, ms, source, after, e)
  {
  }

  /**
   * The instances `created` built from the objects so far, each resolved to
   * `chosen[k]`: kept once each, all new since `before`, of the property's
   * class; only instances the finder handed back were written besides them.
   */
  ghost predicate Resolved(ports: Ports, before: map<EntityId, Entity>, after: map<EntityId, Entity>,
                           created: seq<EntityId>, chosen: seq<EntityId>, reused: set<EntityId>, rangeClass: string)
  {
    created == CollectionAddAll(SetKind, [], chosen) && Distinct(created) && |created| <= |chosen| &&
    (forall c :: c in created ==> c in after && c !in before && after[c].isNew && after[c].metaClass == rangeClass) &&
    Grows(before, after) && FoundByFinder(ports, reused) && WritesOnly(before, after, reused)
  }

  /** One more object resolved to `c`, which was either built already or is new, with `r` the instances reused for it. */
  lemma ResolvedStep(ports: Ports, start: map<EntityId, Entity>, before: map<EntityId, Entity>,
                     after: map<EntityId, Entity>, created: seq<EntityId>, chosen: seq<EntityId>,
                     reused: set<EntityId>, rangeClass: string, c: EntityId, r: set<EntityId>)
    requires Resolved(ports, start, before, created, chosen, reused, rangeClass)
    requires Grows(before, after) && c in after && FoundByFinder(ports, r) && WritesOnly(before, after, {c} + r)
    requires c in created || (c !in before && after[c].isNew && after[c].metaClass == rangeClass)
    ensures Resolved(ports, start, after, if c in created then created else created + [c], chosen + [c], reused + r,
                     rangeClass)
  {
    var next := if c in created then created else created + [c];
    forall x | x in next
      ensures x in after && x !in start && after[x].isNew && after[x].metaClass == rangeClass
    {
      if x in created {
        assert x in before && before[x].isNew && before[x].metaClass == rangeClass;
      } else {
        assert x == c && c !in created && c !in before;
      }
    }
    WritesOnlyTrans(start, before, after, reused, r, {c});
    ResolvedMembers(created, chosen, c);
    assert Grows(start, after);
  }

  /** The built instances after one more object resolved to `c`: `c` added once. */
  lemma ResolvedMembers(created: seq<EntityId>, chosen: seq<EntityId>, c: EntityId)
    requires created == CollectionAddAll(SetKind, [], chosen) && Distinct(created) && |created| <= |chosen|
    ensures var next := if c in created then created else created + [c];
      next == CollectionAddAll(SetKind, [], chosen + [c]) && Distinct(next) && |next| <= |chosen| + 1
  {
    CollectionAddAllSnoc(SetKind, [], chosen, c);
    SetAddAllKeepsDistinct([], chosen + [c]);
  }

  /** One object of `createEntityCollection`: resolved against the instances built so far and added unless already there. */
  method AddResolved(ports: Ports, heap: EntityHeap, ctx: PropertyBindingContext, created: seq<EntityId>,
                     obj: ImportedObject, ghost start: map<EntityId, Entity>, ghost chosen: seq<EntityId>,
                     ghost reused: set<EntityId>, ghost rangeClass: string)
    returns (next: seq<EntityId>, ghost chosen': seq<EntityId>, ghost reused': set<EntityId>)
    requires heap.Valid() && FindsInPool(ports) && ctx.ownerEntityMetaClass.Some?
    requires rangeClass == ctx.GetAssociationMetaProperty(ports.metamodel).rangeClass
    requires Resolved(ports, start, heap.entities, created, chosen, reused, rangeClass)
    modifies heap, ctx`sourceObject
    ensures heap.Valid() && ctx.sourceObject == obj && |chosen'| == |chosen| + 1
    ensures ctx.ownerEntityMetaClass == old(ctx.ownerEntityMetaClass) && ctx.propertyMapping == old(ctx.propertyMapping)
    ensures rangeClass == ctx.GetAssociationMetaProperty(ports.metamodel).rangeClass
    ensures Resolved(ports, start, heap.entities, next, chosen', reused', rangeClass)
    decreases ctx.propertyMapping, 2
  {
    ghost var before := heap.entities;
    var c, r := CreateAssociation(ports, heap, ctx, created, Some(obj));
    next := if c in created then created else created + [c];
    ResolvedStep(ports, start, before, heap.entities, created, chosen, reused, rangeClass, c, r);
    chosen', reused' := chosen + [c], reused + r;
  }

  /**
   * `createEntityCollection`: each object resolved against the instances
   * built so far, a repeated instance kept once, then the inverse property of
   * every built instance pointed at the owner. `chosen[k]` is the instance the
   * `k`-th object resolved to.
   */
  method CreateEntityCollection(ports: Ports, heap: EntityHeap, owner: EntityId, ctx: PropertyBindingContext,
                                objects: seq<ImportedObject>)
    returns (created: seq<EntityId>, ghost reused: set<EntityId>, ghost chosen: seq<EntityId>)
    requires heap.Valid() && owner in heap.entities && FindsInPool(ports)
    requires ctx.ownerEntityMetaClass.Some?
    modifies heap, ctx`sourceObject
    ensures heap.Valid() && Grows(old(heap.entities), heap.entities)
    ensures |chosen| == |objects| && created == CollectionAddAll(SetKind, [], chosen)
    ensures Distinct(created) && |created| <= |objects|
    ensures forall c :: c in created ==>
      c in heap.entities && c !in old(heap.entities) && heap.entities[c].isNew &&
      heap.entities[c].metaClass == ctx.GetAssociationMetaProperty(ports.metamodel).rangeClass
    ensures FoundByFinder(ports, reused) && WritesOnly(old(heap.entities), heap.entities, reused)
    ensures var inverse := ctx.GetAssociationMetaProperty(ports.metamodel).inverse;
      inverse.Some? ==> forall c :: c in created ==> PropertyOf(heap.entities, c, inverse.value) == EntityRef(owner)
    ensures |objects| == 0 ==> created == [] && heap.entities == old(heap.entities)
    ensures |objects| > 0 ==> ctx.sourceObject == objects[|objects| - 1]
    decreases ctx.propertyMapping, 4
  {
    created, reused, chosen := ResolveAll(ports, heap, ctx, objects);
    var inverse := ctx.GetAssociationMetaProperty(ports.metamodel).inverse;
    if inverse.Some? {
      PointInverseAt(heap, created, inverse.value, owner);
    }
  }

  /** The first loop of `createEntityCollection`: every object resolved, in order. */
  method ResolveAll(ports: Ports, heap: EntityHeap, ctx: PropertyBindingContext, objects: seq<ImportedObject>)
    returns (created: seq<EntityId>, ghost reused: set<EntityId>, ghost chosen: seq<EntityId>)
    requires heap.Valid() && FindsInPool(ports)
    requires ctx.ownerEntityMetaClass.Some?
    modifies heap, ctx`sourceObject
    ensures heap.Valid() && |chosen| == |objects|
    ensures Resolved(ports, old(heap.entities), heap.entities, created, chosen, reused,
                     ctx.GetAssociationMetaProperty(ports.metamodel).rangeClass)
    ensures |objects| == 0 ==> created == [] && heap.entities == old(heap.entities)
    ensures |objects| > 0 ==> ctx.sourceObject == objects[|objects| - 1]
    decreases ctx.propertyMapping, 3
  {
    ghost var start := heap.entities;
    ghost var rangeClass := ctx.GetAssociationMetaProperty(ports.metamodel).rangeClass;
    created, reused, chosen := [], {}, [];
    var i := 0;
    while i < |objects|
      invariant 0 <= i <= |objects| && heap.Valid() && |chosen| == i
      invariant i == 0 ==> created == [] && heap.entities == start
      invariant Resolved(ports, start, heap.entities, created, chosen, reused, rangeClass)
      invariant i > 0 ==> ctx.sourceObject == objects[i - 1]
      invariant ctx.ownerEntityMetaClass.Some? && rangeClass == ctx.GetAssociationMetaProperty(ports.metamodel).rangeClass
    {
      created, chosen, reused := AddResolved(ports, heap, ctx, created, objects[i], start, chosen, reused, rangeClass);
      i := i + 1;
    }
  }

  /** The inverse property of every built instance pointed at the owner. */
  method PointInverseAt(heap: EntityHeap, created: seq<EntityId>, inverse: string, owner: EntityId)
    requires heap.Valid() && forall c :: c in created ==> c in heap.entities
    modifies heap
    ensures heap.Valid() && heap.entities.Keys == old(heap.entities).Keys
    ensures forall x :: x in old(heap.entities) ==>
      heap.entities[x].metaClass == old(heap.entities)[x].metaClass && heap.entities[x].isNew == old(heap.entities)[x].isNew
    ensures forall x :: x in old(heap.entities) && x !in created ==> heap.entities[x] == old(heap.entities)[x]
    ensures forall c :: c in created ==> PropertyOf(heap.entities, c, inverse) == EntityRef(owner)
  {
    var j := 0;
    while j < |created|
      invariant 0 <= j <= |created|
      invariant heap.Valid() && heap.entities.Keys == old(heap.entities).Keys
      invariant forall x :: x in old(heap.entities) ==>
        heap.entities[x].metaClass == old(heap.entities)[x].metaClass && heap.entities[x].isNew == old(heap.entities)[x].isNew
      invariant forall x :: x in old(heap.entities) && x !in created ==> heap.entities[x] == old(heap.entities)[x]
      invariant forall k :: 0 <= k < j ==> PropertyOf(heap.entities, created[k], inverse) == EntityRef(owner)
    {
      heap.SetValue(created[j], inverse, EntityRef(owner));
      j := j + 1;
    }
  }

  /** A CreatedAssociation record: the owner, the new instance it refers to, and the mapping that produced it. */
  datatype CreatedAssociation = CreatedAssociation(ownerEntity: EntityId, createdObject: EntityId, propertyMapping: PropertyMapping)

  /** EntityInfo: a populated instance and the new instances built for it. */
  datatype EntityInfo = EntityInfo(entity: EntityId, createdAssociations: seq<CreatedAssociation>)

  /** Every record names a new instance of the heap. */
  ghost predicate AllNew(heap: map<EntityId, Entity>, cs: seq<CreatedAssociation>)
  {
    forall i :: 0 <= i < |cs| ==> cs[i].createdObject in heap && heap[cs[i].createdObject].isNew
  }

  /** Every record's owner is the root owner or an instance recorded before it: the records list a tree walk. */
  ghost predicate OwnedFrom(owner: EntityId, cs: seq<CreatedAssociation>)
  {
    forall i :: 0 <= i < |cs| ==> cs[i].ownerEntity == owner || exists k :: 0 <= k < i && cs[k].createdObject == cs[i].ownerEntity
  }

  lemma OwnedFromConcat(owner: EntityId, a: seq<CreatedAssociation>, b: seq<CreatedAssociation>)
    requires OwnedFrom(owner, a) && OwnedFrom(owner, b)
    ensures OwnedFrom(owner, a + b)
  {
    var c := a + b;
    forall i | 0 <= i < |c| && c[i].ownerEntity != owner
      ensures exists k :: 0 <= k < i && c[k].createdObject == c[i].ownerEntity
    {
      if i < |a| {
        var k :| 0 <= k < i && a[k].createdObject == a[i].ownerEntity;
        assert c[k] == a[k];
      } else {
        assert c[i] == b[i - |a|];
        var k :| 0 <= k < i - |a| && b[k].createdObject == b[i - |a|].ownerEntity;
        assert c[k + |a|] == b[k];
      }
    }
  }

  lemma OwnedFromPrepend(owner: EntityId, o: EntityId, m: PropertyMapping, t: seq<CreatedAssociation>)
    requires OwnedFrom(o, t)
    ensures OwnedFrom(owner, [CreatedAssociation(owner, o, m)] + t)
  {
    var c := [CreatedAssociation(owner, o, m)] + t;
    forall i | 0 < i < |c| && c[i].ownerEntity != owner
      ensures exists k :: 0 <= k < i && c[k].createdObject == c[i].ownerEntity
    {
      assert c[i] == t[i - 1];
      if t[i - 1].ownerEntity == o {
        assert c[0].createdObject == c[i].ownerEntity;
      } else {
        var k :| 0 <= k < i - 1 && t[k].createdObject == t[i - 1].ownerEntity;
        assert c[k + 1] == t[k];
      }
    }
  }

  /**
   * `addCreatedAssociation`: the new instances the owner's property holds
   * (every new member of a collection, or the value itself), each followed by
   * the new instances of its own nested association mappings.
   */
  function AddCreated(heap: map<EntityId, Entity>, owner: EntityId, m: PropertyMapping): (r: seq<CreatedAssociation>)
    ensures AllNew(heap, r) && OwnedFrom(owner, r)
    ensures forall i :: 0 <= i < |r| ==> r[i].propertyMapping == m || r[i].propertyMapping.isAssociation
    ensures !PropertyOf(heap, owner, m.propertyName).Collection? && !IsNewIn(heap, PropertyOf(heap, owner, m.propertyName)) ==> r == []
    decreases m, 2
  {
    var v := PropertyOf(heap, owner, m.propertyName);
    if v.Collection? then AddCreatedMembers(heap, owner, m, v.members, 0)
    else if IsNewIn(heap, v) then
      var t := FillCreated(heap, v.id, m, 0);
      OwnedFromPrepend(owner, v.id, m, t);
      [CreatedAssociation(owner, v.id, m)] + t
    else []
  }

  /** The collection branch of `addCreatedAssociation`, from member `j` on. */
  function AddCreatedMembers(heap: map<EntityId, Entity>, owner: EntityId, m: PropertyMapping,
                             members: seq<EntityId>, j: nat): (r: seq<CreatedAssociation>)
    requires j <= |members|
    ensures AllNew(heap, r) && OwnedFrom(owner, r)
    ensures forall i :: 0 <= i < |r| ==> r[i].propertyMapping == m || r[i].propertyMapping.isAssociation
    ensures forall k :: j <= k < |members| && members[k] in heap && heap[members[k]].isNew ==>
      CreatedAssociation(owner, members[k], m) in r
    decreases m, 1, |members| - j
  {
    if j == |members| then []
    else
      var o := members[j];
      var head := if o in heap && heap[o].isNew then
        var t := FillCreated(heap, o, m, 0);
        OwnedFromPrepend(owner, o, m, t);
        [CreatedAssociation(owner, o, m)] + t
      else [];
      var rest := AddCreatedMembers(heap, owner, m, members, j + 1);
      OwnedFromConcat(owner, head, rest);
      assert forall k :: j < k < |members| ==> CreatedAssociation(owner, members[k], m) in rest ==>
        CreatedAssociation(owner, members[k], m) in head + rest;
      head + rest
  }

  /** `fillCreatedAssociations`: the new instances of the association mappings nested in `m`, from the `i`-th on. */
  function FillCreated(heap: map<EntityId, Entity>, owner: EntityId, m: PropertyMapping, i: nat): (r: seq<CreatedAssociation>)
    requires i <= |m.propertyMappings|
    ensures AllNew(heap, r) && OwnedFrom(owner, r)
    ensures forall k :: 0 <= k < |r| ==> r[k].propertyMapping.isAssociation
    decreases m, 0, |m.propertyMappings| - i
  {
    if i == |m.propertyMappings| then []
    else
      var child := m.propertyMappings[i];
      var head := if child.isAssociation then AddCreated(heap, owner, child) else [];
      var rest := FillCreated(heap, owner, m, i + 1);
      OwnedFromConcat(owner, head, rest);
      head + rest
  }

  /** `getCreateAssociations`: the new instances reached from the configuration's association mappings, from the `i`-th on. */
  function CreatedAssociations(heap: map<EntityId, Entity>, entity: EntityId, ms: seq<PropertyMapping>, i: nat): (r: seq<CreatedAssociation>)
    requires i <= |ms|
    ensures AllNew(heap, r) && OwnedFrom(entity, r)
    ensures forall k :: 0 <= k < |r| ==> r[k].propertyMapping.isAssociation
    ensures (forall k :: i <= k < |ms| ==> !ms[k].isAssociation) ==> r == []
    decreases |ms| - i
  {
    if i == |ms| then []
    else
      var head := if ms[i].isAssociation then AddCreated(heap, entity, ms[i]) else [];
      var rest := CreatedAssociations(heap, entity, ms, i + 1);
      OwnedFromConcat(entity, head, rest);
      head + rest
  }

  /**
   * `populateProperties`: every mapping of the configuration applied to the
   * instance, in order, against the data item; the result lists the new
   * instances the population left in its association properties.
   */
  method PopulateProperties(ports: Ports, heap: EntityHeap, entity: EntityId, config: ImportConfiguration,
                            item: ImportedDataItem)
    returns (info: EntityInfo, ghost states: seq<map<EntityId, Entity>>, ghost steps: seq<set<EntityId>>,
             ghost reused: set<EntityId>)
    requires heap.Valid() && entity in heap.entities && FindsInPool(ports)
    modifies heap
    ensures heap.Valid()
    ensures Populated(ports, config.Formats(), old(heap.entities)[entity].metaClass, config.propertyMappings,
                      item.AsObject(), None, entity, old(heap.entities), heap.entities, states, steps, reused)
    ensures info.entity == entity
    ensures info.createdAssociations == CreatedAssociations(heap.entities, entity, config.propertyMappings, 0)
  {
    states, steps, reused := BindMappings(ports, heap, entity, config, item.AsObject(), config.propertyMappings, None);
    var ms := config.propertyMappings;
    info := EntityInfo(entity, CreatedAssociations(heap.entities, entity, ms, 0));
  }

  /**
   * The overload with pools: as `populateProperties`, but each association
   * mapping's context carries the instances created for that mapping so far,
   * so that many-to-one creation can reuse them.
   */
  method PopulatePropertiesWithPools(ports: Ports, heap: EntityHeap, entity: EntityId, config: ImportConfiguration,
                                     item: ImportedDataItem, pools: map<PropertyMapping, seq<EntityId>>)
    returns (info: EntityInfo, ghost states: seq<map<EntityId, Entity>>, ghost steps: seq<set<EntityId>>,
             ghost reused: set<EntityId>)
    requires heap.Valid() && entity in heap.entities && FindsInPool(ports)
    modifies heap
    ensures heap.Valid()
    ensures Populated(ports, config.Formats(), old(heap.entities)[entity].metaClass, config.propertyMappings,
                      item.AsObject(), Some(pools), entity, old(heap.entities), heap.entities, states, steps, reused)
    ensures info.entity == entity
    ensures info.createdAssociations == CreatedAssociations(heap.entities, entity, config.propertyMappings, 0)
  {
    states, steps, reused := BindMappings(ports, heap, entity, config, item.AsObject(), config.propertyMappings, Some(pools));
    var ms := config.propertyMappings;
    info := EntityInfo(entity, CreatedAssociations(heap.entities, entity, ms, 0));
  }
}
