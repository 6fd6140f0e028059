/**
 * Population of entities from the `configuration.mapping` mappings: the
 * property populator (property/populator/impl/EntityPropertiesPopulatorImpl.java),
 * the value provider it consults (PropertyValueProvider.java), the lookup
 * values of PropertyMappingUtils.java and the reference creator
 * (ReferenceCreator.java). The simple, custom and reference value providers
 * of this package and PropertyMappingContext's raw value are not part of this
 * model: they are the functions of `ProviderPorts`.
 */
module ReferencePopulation {
  import opened Wrappers
  import opened RawData
  import opened Metadata
  import opened Entities
  import opened ConfigMapping
  import opened Configuration
  import Population

  /** PropertyMappingContext: the mapping, the configuration, the raw values source and the owner's entity class. */
  datatype MappingContext = MappingContext(
    propertyMapping: PropertyMapping,
    importConfiguration: ImportConfiguration,
    rawValuesSource: ImportedObject,
    ownerEntityMetaClass: string)
  {
    /** `getMetaProperty`: the owner class's property named by the mapping. */
    function GetMetaProperty(mm: Metamodel): MetaProperty
    {
      mm(ownerEntityMetaClass, propertyMapping.entityPropertyName)
    }
  }

  /**
   * The providers outside this model, as functions:
   * - `simpleValue`: SimplePropertyValueProvider.getValue(context) of this package;
   * - `customValue`: CustomValueProvider.getValue(mapping, configuration, source);
   * - `rawValue`: PropertyMappingContext.getRawValue;
   * - `singleEntity`: ReferenceValueProvider.getSingleEntity(context, pool), on a heap snapshot;
   * - `entityCollection`: ReferenceValueProvider.getEntityCollection(owner, context), on a heap snapshot.
   */
  datatype ProviderPorts = ProviderPorts(
    simpleValue: MappingContext -> Value,
    customValue: (PropertyMapping, ImportConfiguration, ImportedObject) -> Value,
    rawValue: MappingContext -> Value,
    singleEntity: (map<EntityId, Entity>, MappingContext, Option<seq<EntityId>>) -> Value,
    entityCollection: (map<EntityId, Entity>, EntityId, MappingContext) -> Value)

  /** `Range.Cardinality.isMany`. */
  predicate IsMany(c: Cardinality)
  {
    c == ONE_TO_MANY || c == MANY_TO_MANY
  }

  /** `getRawValueSource`: the nested source under the mapping's data field when there is one, else the given source. */
  function RawValueSource(source: ImportedObject, m: PropertyMapping): (r: ImportedObject)
    ensures m.dataFieldName.None? ==> r == source
    ensures m.dataFieldName.Some? && source.GetRawValue(m.dataFieldName.value).Object? ==>
      r == source.GetRawValue(m.dataFieldName.value).obj
    ensures m.dataFieldName.Some? && !source.GetRawValue(m.dataFieldName.value).Object? ==> r == source
  {
    if m.dataFieldName.None? then source
    else
      var nested := source.GetRawValue(m.dataFieldName.value);
      if nested.Object? then nested.obj else source
  }

  /** `getCreatedReferences` of the provider: no pool map, no pool; otherwise the map's entry for the mapping. */
  function PoolFor(m: PropertyMapping, pools: Option<map<PropertyMapping, seq<EntityId>>>): (r: Option<seq<EntityId>>)
    ensures pools.None? ==> r.None?
    ensures pools.Some? ==> (r.Some? <==> m in pools.value)
    ensures r.Some? ==> r.value == pools.value[m]
  {
    if pools.None? || m !in pools.value then None else Some(pools.value[m])
  }

  /** `getSimpleValue`: custom mappings ask the custom provider, simple mappings the simple provider, others get null. */
  function SimpleValueOf(providers: ProviderPorts, ownerClass: string, config: ImportConfiguration,
                         m: PropertyMapping, source: ImportedObject): (r: Value)
    ensures m.CustomPropertyMapping? ==> r == providers.customValue(m, config, source)
    ensures m.SimplePropertyMapping? ==> r == providers.simpleValue(MappingContext(m, config, source, ownerClass))
    ensures m.IsReference() ==> r == Null
  {
    match m
    case CustomPropertyMapping(_, _, _) => providers.customValue(m, config, source)
    case SimplePropertyMapping(_, _) => providers.simpleValue(MappingContext(m, config, source, ownerClass))
    case _ => Null
  }

  /**
   * `getReferenceValue` with `processMultiFieldMapping`: a multi-field
   * reference reads from its nested source and is a collection (no pool) for
   * a to-many property, a single entity (with its pool) otherwise; a
   * single-field reference is a single entity from the given source; any
   * other mapping gets null.
   */
  function ReferenceValueOf(providers: ProviderPorts, mm: Metamodel, heap: map<EntityId, Entity>, entity: EntityId,
                            ownerClass: string, config: ImportConfiguration, m: PropertyMapping, source: ImportedObject,
                            pools: Option<map<PropertyMapping, seq<EntityId>>>): (r: Value)
    ensures !m.IsReference() ==> r == Null
    ensures m.ReferencePropertyMapping? ==>
      r == providers.singleEntity(heap, MappingContext(m, config, source, ownerClass), PoolFor(m, pools))
    ensures m.ReferenceMultiFieldPropertyMapping? ==>
      var ctx := MappingContext(m, config, RawValueSource(source, m), ownerClass);
      r == if IsMany(ctx.GetMetaProperty(mm).cardinality) then providers.entityCollection(heap, entity, ctx)
           else providers.singleEntity(heap, ctx, PoolFor(m, pools))
  {
    match m
    case ReferenceMultiFieldPropertyMapping(_, _, _, _, _) =>
      var ctx := MappingContext(m, config, RawValueSource(source, m), ownerClass);
      if IsMany(ctx.GetMetaProperty(mm).cardinality) then providers.entityCollection(heap, entity, ctx)
      else providers.singleEntity(heap, ctx, PoolFor(m, pools))
    case ReferencePropertyMapping(_, _, _, _) =>
      providers.singleEntity(heap, MappingContext(m, config, source, ownerClass), PoolFor(m, pools))
    case _ => Null
  }

  /** A to-many multi-field reference never consults the pools. */
  lemma ToManyReferenceIgnoresPools(providers: ProviderPorts, mm: Metamodel, heap: map<EntityId, Entity>, entity: EntityId,
                                    ownerClass: string, config: ImportConfiguration, m: PropertyMapping, source: ImportedObject,
                                    pools1: Option<map<PropertyMapping, seq<EntityId>>>,
                                    pools2: Option<map<PropertyMapping, seq<EntityId>>>)
    requires m.ReferenceMultiFieldPropertyMapping? && IsMany(mm(ownerClass, m.entityPropertyName).cardinality)
    ensures ReferenceValueOf(providers, mm, heap, entity, ownerClass, config, m, source, pools1) ==
            ReferenceValueOf(providers, mm, heap, entity, ownerClass, config, m, source, pools2)
  {
  }

  /** Without a pool map a reference is resolved without a pool, whatever its kind. */
  lemma NoPoolMapNoPool(providers: ProviderPorts, mm: Metamodel, heap: map<EntityId, Entity>, entity: EntityId,
                        ownerClass: string, config: ImportConfiguration, m: PropertyMapping, source: ImportedObject)
    requires m.IsReference()
    ensures var ctx := MappingContext(m, config, if m.ReferencePropertyMapping? then source else RawValueSource(source, m), ownerClass);
      ReferenceValueOf(providers, mm, heap, entity, ownerClass, config, m, source, None) ==
        (if m.ReferenceMultiFieldPropertyMapping? && IsMany(ctx.GetMetaProperty(mm).cardinality)
         then providers.entityCollection(heap, entity, ctx)
         else providers.singleEntity(heap, ctx, None))
  {
  }

  /**
   * The protected `getPropertyValues` of PropertyMappingUtils: every
   * non-reference mapping puts its value (custom provider for custom
   * mappings, simple provider otherwise) under its entity property name, a
   * later mapping of the same name replacing an earlier one.
   */
  function MappingValues(providers: ProviderPorts, config: ImportConfiguration, ownerClass: string,
                         ms: seq<PropertyMapping>, source: ImportedObject): map<string, Value>
  {
    if |ms| == 0 then map[]
    else
      var previous := MappingValues(providers, config, ownerClass, ms[..|ms| - 1], source);
      var m := ms[|ms| - 1];
      if m.IsReference() then previous
      else previous[m.entityPropertyName := SimpleValueOf(providers, ownerClass, config, m, source)]
  }

  /** The keys are exactly the entity property names of the non-reference mappings. */
  lemma {:induction false} MappingValuesKeys(providers: ProviderPorts, config: ImportConfiguration, ownerClass: string,
                                            ms: seq<PropertyMapping>, source: ImportedObject, name: string)
    ensures name in MappingValues(providers, config, ownerClass, ms, source) <==>
      exists i :: 0 <= i < |ms| && !ms[i].IsReference() && ms[i].entityPropertyName == name
  {
    if |ms| > 0 {
      var n := |ms| - 1;
      MappingValuesKeys(providers, config, ownerClass, ms[..n], source, name);
      if exists i :: 0 <= i < n && !ms[..n][i].IsReference() && ms[..n][i].entityPropertyName == name {
        var i :| 0 <= i < n && !ms[..n][i].IsReference() && ms[..n][i].entityPropertyName == name;
        assert ms[i] == ms[..n][i];
      }
      if exists i :: 0 <= i < |ms| && !ms[i].IsReference() && ms[i].entityPropertyName == name {
        var i :| 0 <= i < |ms| && !ms[i].IsReference() && ms[i].entityPropertyName == name;
        if i < n {
          assert ms[..n][i] == ms[i];
        }
      }
    }
  }

  /** The protected `getPropertyValues` as the loop the stream runs. */
  method GetMappingValues(providers: ProviderPorts, config: ImportConfiguration, ownerClass: string,
                          ms: seq<PropertyMapping>, source: ImportedObject) returns (values: map<string, Value>)
    ensures values == MappingValues(providers, config, ownerClass, ms, source)
  {
    values := map[];
    var i := 0;
    while i < |ms|
      invariant 0 <= i <= |ms|
      invariant values == MappingValues(providers, config, ownerClass, ms[..i], source)
    {
      assert ms[..i + 1][..i] == ms[..i];
      if !ms[i].IsReference() {
        values := values[ms[i].entityPropertyName := SimpleValueOf(providers, ownerClass, config, ms[i], source)];
      }
      i := i + 1;
    }
    assert ms[..|ms|] == ms;
  }

  /** The nested mappings of a multi-field reference whose entity property name is a lookup name, in order. */
  function LookupMappings(ms: seq<PropertyMapping>, lookups: seq<string>): (r: seq<PropertyMapping>)
    ensures forall i :: 0 <= i < |r| ==> r[i] in ms && r[i].entityPropertyName in lookups
    ensures forall m :: m in ms && m.entityPropertyName in lookups ==> m in r
  {
    if |ms| == 0 then []
    else (if ms[0].entityPropertyName in lookups then [ms[0]] else []) + LookupMappings(ms[1..], lookups)
  }

  /**
   * The context overload of `getPropertyValues`: for a multi-field reference
   * the values of its lookup mappings against the reference's class; for a
   * single-field reference the lookup property with the simple provider's
   * value; for any other mapping nothing.
   */
  function ContextValues(providers: ProviderPorts, mm: Metamodel, ctx: MappingContext): map<string, Value>
  {
    var m := ctx.propertyMapping;
    match m
    case ReferenceMultiFieldPropertyMapping(_, _, nested, lookups, _) =>
      MappingValues(providers, ctx.importConfiguration, ctx.GetMetaProperty(mm).rangeClass,
                    LookupMappings(nested, lookups), ctx.rawValuesSource)
    case ReferencePropertyMapping(_, _, lookup, _) => map[lookup := providers.simpleValue(ctx)]
    case _ => map[]
  }

  /** A multi-field reference looks up only by its lookup names, and only by nested non-reference mappings. */
  lemma MultiFieldLookupKeys(providers: ProviderPorts, mm: Metamodel, ctx: MappingContext, name: string)
    requires ctx.propertyMapping.ReferenceMultiFieldPropertyMapping?
    ensures var m := ctx.propertyMapping;
      name in ContextValues(providers, mm, ctx) <==>
        name in m.lookupPropertyNames &&
        exists n :: n in m.referencePropertyMappings && !n.IsReference() && n.entityPropertyName == name
  {
    var m := ctx.propertyMapping;
    var chosen := LookupMappings(m.referencePropertyMappings, m.lookupPropertyNames);
    MappingValuesKeys(providers, ctx.importConfiguration, ctx.GetMetaProperty(mm).rangeClass, chosen, ctx.rawValuesSource, name);
    if name in m.lookupPropertyNames && exists n :: n in m.referencePropertyMappings && !n.IsReference() && n.entityPropertyName == name {
      var n :| n in m.referencePropertyMappings && !n.IsReference() && n.entityPropertyName == name;
      var i :| 0 <= i < |chosen| && chosen[i] == n;
    }
    if name in ContextValues(providers, mm, ctx) {
      var i :| 0 <= i < |chosen| && !chosen[i].IsReference() && chosen[i].entityPropertyName == name;
      assert chosen[i] in m.referencePropertyMappings;
    }
  }

  /** A single-field reference looks up by its lookup property alone; other mappings by nothing. */
  lemma SingleFieldLookupKeys(providers: ProviderPorts, mm: Metamodel, ctx: MappingContext)
    ensures ctx.propertyMapping.ReferencePropertyMapping? ==>
      ContextValues(providers, mm, ctx).Keys == {ctx.propertyMapping.lookupPropertyName}
    ensures !ctx.propertyMapping.IsReference() ==> ContextValues(providers, mm, ctx) == map[]
  {
  }

  /** The root overload of `getPropertyValues`: the configuration's mappings, against its entity class, from the item. */
  method GetItemValues(providers: ProviderPorts, config: ImportConfiguration, item: ImportedDataItem)
    returns (values: map<string, Value>)
    ensures values == MappingValues(providers, config, config.entityClass, config.propertyMappings, item.AsObject())
  {
    values := GetMappingValues(providers, config, config.entityClass, config.propertyMappings, item.AsObject());
  }

  /** CreatedReference: the owner, the new instance it refers to, and the multi-field mapping it came from. */
  datatype CreatedReference = CreatedReference(ownerEntity: EntityId, createdObject: EntityId, propertyMapping: PropertyMapping)

  /** The populated instance and the new instances reached from it. */
  datatype ReferenceInfo = ReferenceInfo(entity: EntityId, createdReferences: seq<CreatedReference>)

  /** Every record names a new instance of the heap and comes from a multi-field reference mapping. */
  ghost predicate RecordsNewMultiField(heap: map<EntityId, Entity>, cs: seq<CreatedReference>)
  {
    forall i :: 0 <= i < |cs| ==>
      cs[i].createdObject in heap && heap[cs[i].createdObject].isNew && cs[i].propertyMapping.ReferenceMultiFieldPropertyMapping?
  }

  /** `addCreatedReference`: the new instances the owner's property holds, each followed by those reached through it. */
  function AddCreatedReference(heap: map<EntityId, Entity>, owner: EntityId, m: PropertyMapping): (r: seq<CreatedReference>)
    requires m.ReferenceMultiFieldPropertyMapping?
    ensures RecordsNewMultiField(heap, r)
    ensures IsNewIn(heap, PropertyOf(heap, owner, m.entityPropertyName)) ==>
      |r| > 0 && r[0] == CreatedReference(owner, PropertyOf(heap, owner, m.entityPropertyName).id, m)
    ensures PropertyOf(heap, owner, m.entityPropertyName) == Null ==> r == []
    decreases m, 2
  {
    var v := PropertyOf(heap, owner, m.entityPropertyName);
    if v.Collection? then AddCreatedReferenceMembers(heap, owner, m, v.members, 0)
    else if IsNewIn(heap, v) then [CreatedReference(owner, v.id, m)] + FillCreatedReferences(heap, v.id, m, 0)
    else []
  }

  /** The collection branch of `addCreatedReference`, from member `j` on. */
  function AddCreatedReferenceMembers(heap: map<EntityId, Entity>, owner: EntityId, m: PropertyMapping,
                                      members: seq<EntityId>, j: nat): (r: seq<CreatedReference>)
    requires m.ReferenceMultiFieldPropertyMapping? && j <= |members|
    ensures RecordsNewMultiField(heap, r)
    ensures forall k :: j <= k < |members| && members[k] in heap && heap[members[k]].isNew ==>
      CreatedReference(owner, members[k], m) in r
    decreases m, 1, |members| - j
  {
    if j == |members| then []
    else
      var o := members[j];
      var head := if o in heap && heap[o].isNew then [CreatedReference(owner, o, m)] + FillCreatedReferences(heap, o, m, 0) else [];
      var rest := AddCreatedReferenceMembers(heap, owner, m, members, j + 1);
      assert forall k :: j < k < |members| ==> CreatedReference(owner, members[k], m) in rest ==>
        CreatedReference(owner, members[k], m) in head + rest;
      head + rest
  }

  /** `fillCreatedReferences`: the records of the multi-field mappings nested in `m`, from the `i`-th on. */
  function FillCreatedReferences(heap: map<EntityId, Entity>, owner: EntityId, m: PropertyMapping, i: nat): (r: seq<CreatedReference>)
    requires m.ReferenceMultiFieldPropertyMapping? && i <= |m.referencePropertyMappings|
    ensures RecordsNewMultiField(heap, r)
    decreases m, 0, |m.referencePropertyMappings| - i
  {
    if i == |m.referencePropertyMappings| then []
    else
      var child := m.referencePropertyMappings[i];
      (if child.ReferenceMultiFieldPropertyMapping? then AddCreatedReference(heap, owner, child) else []) +
      FillCreatedReferences(heap, owner, m, i + 1)
  }

  /** `getCreatedReferences` of the populator: the records of the configuration's multi-field mappings, from the `i`-th on. */
  function CreatedReferences(heap: map<EntityId, Entity>, entity: EntityId, ms: seq<PropertyMapping>, i: nat): (r: seq<CreatedReference>)
    requires i <= |ms|
    ensures RecordsNewMultiField(heap, r)
    ensures (forall k :: i <= k < |ms| ==> !ms[k].ReferenceMultiFieldPropertyMapping?) ==> r == []
    decreases |ms| - i
  {
    if i == |ms| then []
    else
      (if ms[i].ReferenceMultiFieldPropertyMapping? then AddCreatedReference(heap, entity, ms[i]) else []) +
      CreatedReferences(heap, entity, ms, i + 1)
  }

  /**
   * `populateProperty`: the property is assigned the reference value for a
   * reference mapping and the simple value otherwise, null included, on the
   * heap as it was before the assignment.
   */
  method PopulateProperty(providers: ProviderPorts, mm: Metamodel, heap: EntityHeap, entity: EntityId, m: PropertyMapping,
                          config: ImportConfiguration, source: ImportedObject,
                          pools: Option<map<PropertyMapping, seq<EntityId>>>)
    requires heap.Valid() && entity in heap.entities
    modifies heap`entities
    ensures heap.Valid()
    ensures var ownerClass := old(heap.MetaClassOf(entity));
      heap.entities == WithProperty(old(heap.entities), entity, m.entityPropertyName,
        if m.IsReference() then ReferenceValueOf(providers, mm, old(heap.entities), entity, ownerClass, config, m, source, pools)
        else SimpleValueOf(providers, ownerClass, config, m, source))
  {
    var ownerClass := heap.MetaClassOf(entity);
    var value := if m.IsReference() then ReferenceValueOf(providers, mm, heap.entities, entity, ownerClass, config, m, source, pools)
                 else SimpleValueOf(providers, ownerClass, config, m, source);
    heap.SetValue(entity, m.entityPropertyName, value);
  }

  /** Every property named by one of `ms` was assigned; every other property, and every other instance, is as before. */
  ghost predicate OnlyMappedChanged(before: map<EntityId, Entity>, after: map<EntityId, Entity>, entity: EntityId,
                                    ms: seq<PropertyMapping>)
    requires entity in before
  {
    after.Keys == before.Keys &&
    after[entity].metaClass == before[entity].metaClass && after[entity].isNew == before[entity].isNew &&
    (forall other :: other in before && other != entity ==> after[other] == before[other]) &&
    (forall n :: (forall k :: 0 <= k < |ms| ==> ms[k].entityPropertyName != n) ==>
       PropertyOf(after, entity, n) == PropertyOf(before, entity, n))
  }

  /** What `populateProperty` assigns for `m` on heap `h`: the reference value for a reference mapping, the simple value otherwise. */
  function AssignedValue(providers: ProviderPorts, mm: Metamodel, h: map<EntityId, Entity>, entity: EntityId,
                         ownerClass: string, config: ImportConfiguration, m: PropertyMapping, source: ImportedObject,
                         pools: Option<map<PropertyMapping, seq<EntityId>>>): Value
  {
    if m.IsReference() then ReferenceValueOf(providers, mm, h, entity, ownerClass, config, m, source, pools)
    else SimpleValueOf(providers, ownerClass, config, m, source)
  }

  /**
   * The first `n` mappings applied in order: `states[k + 1]` is `states[k]`
   * with the `k`-th mapping's property assigned its value, computed on `states[k]`.
   */
  ghost predicate AppliedInOrder(providers: ProviderPorts, mm: Metamodel, entity: EntityId, ownerClass: string,
                                 config: ImportConfiguration, ms: seq<PropertyMapping>, source: ImportedObject,
                                 pools: Option<map<PropertyMapping, seq<EntityId>>>, n: nat,
                                 states: seq<map<EntityId, Entity>>)
  {
    n <= |ms| && n < |states| &&
    forall k :: 0 <= k < n ==>
      entity in states[k] &&
      states[k + 1] == WithProperty(states[k], entity, ms[k].entityPropertyName,
                                    AssignedValue(providers, mm, states[k], entity, ownerClass, config, ms[k], source, pools))
  }

  /**
   * The heap after the first `n` mappings are applied in order to `entity`,
   * from `h`: each assigns its property the value computed on the heap the
   * previous one left.
   */
  ghost function AppliedHeap(providers: ProviderPorts, mm: Metamodel, entity: EntityId, ownerClass: string,
                             config: ImportConfiguration, ms: seq<PropertyMapping>, source: ImportedObject,
                             pools: Option<map<PropertyMapping, seq<EntityId>>>, h: map<EntityId, Entity>, n: nat)
    : (r: map<EntityId, Entity>)
    requires n <= |ms| && entity in h
    ensures r.Keys == h.Keys
    decreases n
  {
    if n == 0 then h
    else
      var prev := AppliedHeap(providers, mm, entity, ownerClass, config, ms, source, pools, h, n - 1);
      WithProperty(prev, entity, ms[n - 1].entityPropertyName,
                   AssignedValue(providers, mm, prev, entity, ownerClass, config, ms[n - 1], source, pools))
  }

  /** A trace of the mappings applied in order ends in the heap `AppliedHeap` computes from its start. */
  lemma {:induction false} AppliedInOrderHeap(providers: ProviderPorts, mm: Metamodel, entity: EntityId, ownerClass: string,
                                              config: ImportConfiguration, ms: seq<PropertyMapping>, source: ImportedObject,
                                              pools: Option<map<PropertyMapping, seq<EntityId>>>, n: nat,
                                              states: seq<map<EntityId, Entity>>)
    requires AppliedInOrder(providers, mm, entity, ownerClass, config, ms, source, pools, n, states)
    requires entity in states[0]
    ensures states[n] == AppliedHeap(providers, mm, entity, ownerClass, config, ms, source, pools, states[0], n)
    decreases n
  {
    if n > 0 {
      AppliedInOrderStep(providers, mm, entity, ownerClass, config, ms, source, pools, n, states);
      AppliedInOrderHeap(providers, mm, entity, ownerClass, config, ms, source, pools, n - 1, states);
    }
  }

  /** The last step of a trace of `n` mappings, and the trace of the first `n - 1`. */
  lemma AppliedInOrderStep(providers: ProviderPorts, mm: Metamodel, entity: EntityId, ownerClass: string,
                           config: ImportConfiguration, ms: seq<PropertyMapping>, source: ImportedObject,
                           pools: Option<map<PropertyMapping, seq<EntityId>>>, n: nat,
                           states: seq<map<EntityId, Entity>>)
    requires 0 < n && AppliedInOrder(providers, mm, entity, ownerClass, config, ms, source, pools, n, states)
    ensures AppliedInOrder(providers, mm, entity, ownerClass, config, ms, source, pools, n - 1, states)
    ensures entity in states[n - 1] &&
      states[n] == WithProperty(states[n - 1], entity, ms[n - 1].entityPropertyName,
                                AssignedValue(providers, mm, states[n - 1], entity, ownerClass, config, ms[n - 1], source, pools))
  {
  }

  /** No mapping after the `k`-th, among the first `n`, names the same property. */
  ghost predicate LastOfName(ms: seq<PropertyMapping>, n: nat, k: nat)
    requires k < n <= |ms|
  {
    forall j :: k < j < n ==> ms[j].entityPropertyName != ms[k].entityPropertyName
  }

  /**
   * After the mappings, the property of the last mapping of each name holds
   * what that mapping assigned, null included; a non-reference mapping's
   * value is its simple value, whatever the heap was.
   */
  lemma {:induction false} LastMappingWins(providers: ProviderPorts, mm: Metamodel, entity: EntityId, ownerClass: string,
                                           config: ImportConfiguration, ms: seq<PropertyMapping>, source: ImportedObject,
                                           pools: Option<map<PropertyMapping, seq<EntityId>>>, n: nat,
                                           states: seq<map<EntityId, Entity>>)
    requires AppliedInOrder(providers, mm, entity, ownerClass, config, ms, source, pools, n, states)
    ensures forall k :: 0 <= k < n && LastOfName(ms, n, k) ==>
      PropertyOf(states[n], entity, ms[k].entityPropertyName) ==
        AssignedValue(providers, mm, states[k], entity, ownerClass, config, ms[k], source, pools)
    ensures forall k :: 0 <= k < n && LastOfName(ms, n, k) && !ms[k].IsReference() ==>
      PropertyOf(states[n], entity, ms[k].entityPropertyName) == SimpleValueOf(providers, ownerClass, config, ms[k], source)
  {
    if n > 0 {
      LastMappingWins(providers, mm, entity, ownerClass, config, ms, source, pools, n - 1, states);
      forall k | 0 <= k < n && LastOfName(ms, n, k)
        ensures PropertyOf(states[n], entity, ms[k].entityPropertyName) ==
          AssignedValue(providers, mm, states[k], entity, ownerClass, config, ms[k], source, pools)
      {
        if k < n - 1 {
          assert LastOfName(ms, n - 1, k);
          assert ms[n - 1].entityPropertyName != ms[k].entityPropertyName;
        }
      }
    }
  }

  /** A non-reference mapping that no later one overrides leaves its simple value on the instance. */
  ghost predicate CarriesMappings(providers: ProviderPorts, ownerClass: string, config: ImportConfiguration,
                                  ms: seq<PropertyMapping>, source: ImportedObject, h: map<EntityId, Entity>, entity: EntityId)
  {
    forall k :: 0 <= k < |ms| && LastOfName(ms, |ms|, k) && !ms[k].IsReference() ==>
      PropertyOf(h, entity, ms[k].entityPropertyName) == SimpleValueOf(providers, ownerClass, config, ms[k], source)
  }

  /** The mappings applied in order to the same instance. */
  method PopulateAll(providers: ProviderPorts, mm: Metamodel, heap: EntityHeap, entity: EntityId, ms: seq<PropertyMapping>,
                     config: ImportConfiguration, source: ImportedObject, pools: Option<map<PropertyMapping, seq<EntityId>>>)
    returns (ghost states: seq<map<EntityId, Entity>>)
    requires heap.Valid() && entity in heap.entities
    modifies heap`entities
    ensures heap.Valid() && entity in heap.entities
    ensures OnlyMappedChanged(old(heap.entities), heap.entities, entity, ms)
    ensures |ms| > 0 && !ms[|ms| - 1].IsReference() ==>
      PropertyOf(heap.entities, entity, ms[|ms| - 1].entityPropertyName) ==
        SimpleValueOf(providers, old(heap.MetaClassOf(entity)), config, ms[|ms| - 1], source)
    ensures |states| == |ms| + 1 && states[0] == old(heap.entities) && states[|ms|] == heap.entities
    ensures AppliedInOrder(providers, mm, entity, old(heap.MetaClassOf(entity)), config, ms, source, pools, |ms|, states)
    ensures forall k :: 0 <= k < |ms| && LastOfName(ms, |ms|, k) ==>
      PropertyOf(heap.entities, entity, ms[k].entityPropertyName) ==
        AssignedValue(providers, mm, states[k], entity, old(heap.MetaClassOf(entity)), config, ms[k], source, pools)
    ensures CarriesMappings(providers, old(heap.MetaClassOf(entity)), config, ms, source, heap.entities, entity)
  {
    ghost var ownerClass := heap.MetaClassOf(entity);
    states := [heap.entities];
    var i := 0;
    while i < |ms|
      invariant 0 <= i <= |ms|
      invariant heap.Valid() && entity in heap.entities && heap.MetaClassOf(entity) == ownerClass
      invariant |states| == i + 1 && states[0] == old(heap.entities) && states[i] == heap.entities
      invariant AppliedInOrder(providers, mm, entity, ownerClass, config, ms, source, pools, i, states)
    {
      PopulateProperty(providers, mm, heap, entity, ms[i], config, source, pools);
      AppliedSnoc(providers, mm, entity, ownerClass, config, ms, source, pools, i, states, heap.entities);
      states := states + [heap.entities];
      i := i + 1;
    }
    AppliedFrame(providers, mm, entity, ownerClass, config, ms, source, pools, |ms|, states);
    LastMappingWins(providers, mm, entity, ownerClass, config, ms, source, pools, |ms|, states);
  }

  /** One more mapping applied extends the trace. */
  lemma AppliedSnoc(providers: ProviderPorts, mm: Metamodel, entity: EntityId, ownerClass: string,
                    config: ImportConfiguration, ms: seq<PropertyMapping>, source: ImportedObject,
                    pools: Option<map<PropertyMapping, seq<EntityId>>>, n: nat,
                    states: seq<map<EntityId, Entity>>, after: map<EntityId, Entity>)
    requires AppliedInOrder(providers, mm, entity, ownerClass, config, ms, source, pools, n, states)
    requires n < |ms| && |states| == n + 1 && entity in states[n]
    requires after == WithProperty(states[n], entity, ms[n].entityPropertyName,
                                   AssignedValue(providers, mm, states[n], entity, ownerClass, config, ms[n], source, pools))
    ensures AppliedInOrder(providers, mm, entity, ownerClass, config, ms, source, pools, n + 1, states + [after])
  {
    var next := states + [after];
    forall k | 0 <= k < n + 1
      ensures entity in next[k] &&
        next[k + 1] == WithProperty(next[k], entity, ms[k].entityPropertyName,
                                    AssignedValue(providers, mm, next[k], entity, ownerClass, config, ms[k], source, pools))
    {
      assert next[k] == states[k];
    }
  }

  /**
   * The first `n` mappings change only the instance, keep its class and its
   * state, and leave every property that none of them names as before.
   */
  lemma {:induction false} AppliedFrame(providers: ProviderPorts, mm: Metamodel, entity: EntityId, ownerClass: string,
                                        config: ImportConfiguration, ms: seq<PropertyMapping>, source: ImportedObject,
                                        pools: Option<map<PropertyMapping, seq<EntityId>>>, n: nat,
                                        states: seq<map<EntityId, Entity>>)
    requires AppliedInOrder(providers, mm, entity, ownerClass, config, ms, source, pools, n, states)
    requires entity in states[0]
    ensures entity in states[n] && states[n].Keys == states[0].Keys
    ensures states[n][entity].metaClass == states[0][entity].metaClass && states[n][entity].isNew == states[0][entity].isNew
    ensures forall other :: other in states[0] && other != entity ==> states[n][other] == states[0][other]
    ensures forall name :: (forall k :: 0 <= k < n ==> ms[k].entityPropertyName != name) ==>
      PropertyOf(states[n], entity, name) == PropertyOf(states[0], entity, name)
  {
    if n > 0 {
      AppliedFrame(providers, mm, entity, ownerClass, config, ms, source, pools, n - 1, states);
      assert entity in states[n - 1];
    }
  }

  /**
   * `populateProperties` (the four-argument form; the three-argument form is
   * this with no pool map): every configuration mapping applied in order, and
   * the new instances reached through multi-field references.
   */
  method PopulateProperties(providers: ProviderPorts, mm: Metamodel, heap: EntityHeap, entity: EntityId,
                            config: ImportConfiguration, item: ImportedDataItem,
                            pools: Option<map<PropertyMapping, seq<EntityId>>>)
    returns (info: ReferenceInfo, ghost states: seq<map<EntityId, Entity>>)
    requires heap.Valid() && entity in heap.entities
    modifies heap`entities
    ensures heap.Valid() && entity in heap.entities
    ensures OnlyMappedChanged(old(heap.entities), heap.entities, entity, config.propertyMappings)
    ensures info.entity == entity
    ensures info.createdReferences == CreatedReferences(heap.entities, entity, config.propertyMappings, 0)
    ensures |states| == |config.propertyMappings| + 1 && states[0] == old(heap.entities) && states[|config.propertyMappings|] == heap.entities
    ensures AppliedInOrder(providers, mm, entity, old(heap.MetaClassOf(entity)), config, config.propertyMappings,
                           item.AsObject(), pools, |config.propertyMappings|, states)
    ensures CarriesMappings(providers, old(heap.MetaClassOf(entity)), config, config.propertyMappings, item.AsObject(),
                            heap.entities, entity)
  {
    states := PopulateAll(providers, mm, heap, entity, config.propertyMappings, config, item.AsObject(), pools);
    info := ReferenceInfo(entity, CreatedReferences(heap.entities, entity, config.propertyMappings, 0));
  }

  /** `populateReference`: the nested mappings applied, without pools, to the given instance, which is returned. */
  method PopulateReference(providers: ProviderPorts, mm: Metamodel, heap: EntityHeap, entity: EntityId,
                           referenceMapping: PropertyMapping, config: ImportConfiguration, source: ImportedObject)
    returns (r: EntityId, ghost states: seq<map<EntityId, Entity>>)
    requires heap.Valid() && entity in heap.entities && referenceMapping.ReferenceMultiFieldPropertyMapping?
    modifies heap`entities
    ensures heap.Valid() && r == entity && entity in heap.entities && Grows(old(heap.entities), heap.entities)
    ensures OnlyMappedChanged(old(heap.entities), heap.entities, entity, referenceMapping.referencePropertyMappings)
    ensures var nested := referenceMapping.referencePropertyMappings;
      |states| == |nested| + 1 && states[0] == old(heap.entities) && states[|nested|] == heap.entities &&
      AppliedInOrder(providers, mm, entity, old(heap.MetaClassOf(entity)), config, nested, source, None, |nested|, states)
    ensures CarriesMappings(providers, old(heap.MetaClassOf(entity)), config, referenceMapping.referencePropertyMappings,
                            source, heap.entities, entity)
  {
    states := PopulateAll(providers, mm, heap, entity, referenceMapping.referencePropertyMappings, config, source, None);
    r := entity;
  }

  /** The instance properties that `populateReferenceEntity` may set for the mapping. */
  function ReferenceEntityNames(m: PropertyMapping): set<string>
  {
    match m
    case ReferenceMultiFieldPropertyMapping(_, _, nested, _, _) => set k | 0 <= k < |nested| :: nested[k].entityPropertyName
    case ReferencePropertyMapping(_, _, lookup, _) => {lookup}
    case _ => {}
  }

  /**
   * `populateReferenceEntity`: switches the context's source to the given
   * object, reuses a pool instance the lookup values find, or else creates one
   * of the reference's class; a multi-field reference then populates it with
   * the nested mappings, a single-field one sets its lookup property. No other
   * instance, and no other property of this one, changes.
   */
  method PopulateReferenceEntity(ports: Ports, providers: ProviderPorts, heap: EntityHeap, context: MappingContext,
                                 existing: seq<EntityId>, newValueSource: Option<ImportedObject>) returns (e: EntityId)
    requires heap.Valid() && FindsInPool(ports)
    modifies heap
    ensures heap.Valid() && Grows(old(heap.entities), heap.entities) && e in heap.entities
    ensures var ctx := if newValueSource.Some? then context.(rawValuesSource := newValueSource.value) else context;
      var found := if |existing| == 0 then None else ports.find(old(heap.entities), existing, ContextValues(providers, ports.metamodel, ctx));
      (found.Some? ==> e == found.value && e in existing) &&
      (found.None? ==> e !in old(heap.entities) && heap.entities[e].isNew &&
                       heap.entities[e].metaClass == ctx.GetMetaProperty(ports.metamodel).rangeClass) &&
      (ctx.propertyMapping.ReferencePropertyMapping? ==>
         PropertyOf(heap.entities, e, ctx.propertyMapping.lookupPropertyName) == providers.simpleValue(ctx)) &&
      (!ctx.propertyMapping.IsReference() ==> found.Some? ==> heap.entities == old(heap.entities)) &&
      (ctx.propertyMapping.ReferenceMultiFieldPropertyMapping? ==>
         CarriesMappings(providers, heap.entities[e].metaClass, ctx.importConfiguration,
                         ctx.propertyMapping.referencePropertyMappings, ctx.rawValuesSource, heap.entities, e))
    ensures heap.entities.Keys <= old(heap.entities).Keys + {e}
    ensures Population.WritesOnly(old(heap.entities), heap.entities, {e})
    ensures forall n :: n !in ReferenceEntityNames(context.propertyMapping) ==>
      PropertyOf(heap.entities, e, n) == PropertyOf(old(heap.entities), e, n)
  {
    var ctx := context;
    if newValueSource.Some? {
      ctx := ctx.(rawValuesSource := newValueSource.value);
    }
    e := PlaceReferenceEntity(ports, providers, heap, ctx, existing);
    ghost var placed := heap.entities;
    PopulatePlaced(providers, ports.metamodel, heap, e, ctx);
    GrowsTransitive(old(heap.entities), placed, heap.entities);
  }

  /**
   * The second half of `populateReferenceEntity`: a multi-field reference sets
   * the nested mappings on the placed instance, a single-field one its lookup
   * property; nothing else changes.
   */
  method PopulatePlaced(providers: ProviderPorts, mm: Metamodel, heap: EntityHeap, e: EntityId, ctx: MappingContext)
    requires heap.Valid() && e in heap.entities
    modifies heap`entities
    ensures heap.Valid() && e in heap.entities && heap.entities.Keys == old(heap.entities).Keys
    ensures Grows(old(heap.entities), heap.entities) && Population.WritesOnly(old(heap.entities), heap.entities, {e})
    ensures forall n :: n !in ReferenceEntityNames(ctx.propertyMapping) ==>
      PropertyOf(heap.entities, e, n) == PropertyOf(old(heap.entities), e, n)
    ensures ctx.propertyMapping.ReferencePropertyMapping? ==>
      PropertyOf(heap.entities, e, ctx.propertyMapping.lookupPropertyName) == providers.simpleValue(ctx)
    ensures !ctx.propertyMapping.IsReference() ==> heap.entities == old(heap.entities)
    ensures ctx.propertyMapping.ReferenceMultiFieldPropertyMapping? ==>
      CarriesMappings(providers, heap.entities[e].metaClass, ctx.importConfiguration,
                      ctx.propertyMapping.referencePropertyMappings, ctx.rawValuesSource, heap.entities, e)
  {
    var m := ctx.propertyMapping;
    if m.ReferenceMultiFieldPropertyMapping? {
      ghost var states, r;
      r, states := PopulateReference(providers, mm, heap, e, m, ctx.importConfiguration, ctx.rawValuesSource);
      forall n | n !in ReferenceEntityNames(m)
        ensures PropertyOf(heap.entities, e, n) == PropertyOf(old(heap.entities), e, n)
      {
        assert forall k :: 0 <= k < |m.referencePropertyMappings| ==> m.referencePropertyMappings[k].entityPropertyName != n;
      }
    } else if m.ReferencePropertyMapping? {
      heap.SetValue(e, m.lookupPropertyName, providers.simpleValue(ctx));
    }
  }

  /** Growth of the heap composes. */
  lemma GrowsTransitive(a: map<EntityId, Entity>, b: map<EntityId, Entity>, c: map<EntityId, Entity>)
    requires Grows(a, b) && Grows(b, c)
    ensures Grows(a, c)
  {
  }

  /**
   * The first half of `populateReferenceEntity`: the instance the lookup finds
   * among `existing`, or a new instance of the property's range class.
   */
  method PlaceReferenceEntity(ports: Ports, providers: ProviderPorts, heap: EntityHeap, ctx: MappingContext,
                              existing: seq<EntityId>) returns (e: EntityId)
    requires heap.Valid() && FindsInPool(ports)
    modifies heap
    ensures heap.Valid() && Grows(old(heap.entities), heap.entities)
    ensures var found := if |existing| == 0 then None else ports.find(old(heap.entities), existing, ContextValues(providers, ports.metamodel, ctx));
      (found.Some? ==> e == found.value && e in existing && e in heap.entities && heap.entities == old(heap.entities)) &&
      (found.None? ==> e !in old(heap.entities) &&
                       heap.entities == old(heap.entities)[e := Entity(ctx.GetMetaProperty(ports.metamodel).rangeClass, map[], true)])
  {
    var found: Option<EntityId> := None;
    if |existing| > 0 {
      var values := ContextValues(providers, ports.metamodel, ctx);
      found := ports.find(heap.entities, existing, values);
    }
    if found.Some? {
      e := found.value;
    } else {
      e := heap.Create(ctx.GetMetaProperty(ports.metamodel).rangeClass);
    }
  }

  /** `createEntity`: many-to-one resolves against the given pool, one-to-one without one, any other cardinality gives null. */
  method CreateEntity(ports: Ports, providers: ProviderPorts, heap: EntityHeap, context: MappingContext,
                      createdReferences: Option<seq<EntityId>>) returns (r: Option<EntityId>)
    requires heap.Valid() && FindsInPool(ports)
    modifies heap
    ensures heap.Valid() && Grows(old(heap.entities), heap.entities)
    ensures var c := context.GetMetaProperty(ports.metamodel).cardinality;
      (r.Some? <==> c == MANY_TO_ONE || c == ONE_TO_ONE) &&
      (r.Some? ==> r.value in heap.entities) &&
      (c == ONE_TO_ONE ==> r.value !in old(heap.entities) && heap.entities[r.value].isNew) &&
      (c == MANY_TO_ONE && r.value in old(heap.entities) ==> createdReferences.Some? && r.value in createdReferences.value) &&
      (r.None? ==> heap.entities == old(heap.entities))
  {
    var c := context.GetMetaProperty(ports.metamodel).cardinality;
    if c == MANY_TO_ONE {
      var pool := if createdReferences.Some? then createdReferences.value else [];
      var e := PopulateReferenceEntity(ports, providers, heap, context, pool, None);
      r := Some(e);
    } else if c == ONE_TO_ONE {
      var e := PopulateReferenceEntity(ports, providers, heap, context, [], None);
      r := Some(e);
    } else {
      r := None;
    }
  }

  /**
   * `createEntityCollection`: each object resolved against the instances
   * built so far, a repeated instance kept once, then the inverse property of
   * every built instance pointed at the owner. `chosen` is the instance each
   * object resolved to, in order; instances that existed before are unchanged.
   */
  method CreateEntityCollection(ports: Ports, providers: ProviderPorts, heap: EntityHeap, owner: EntityId,
                                context: MappingContext, objects: seq<ImportedObject>)
    returns (created: seq<EntityId>, ghost chosen: seq<EntityId>)
    requires heap.Valid() && owner in heap.entities && FindsInPool(ports)
    modifies heap
    ensures heap.Valid() && Grows(old(heap.entities), heap.entities)
    ensures Population.Distinct(created) && |created| <= |objects|
    ensures forall c :: c in created ==> c in heap.entities
    ensures var inverse := context.GetMetaProperty(ports.metamodel).inverse;
      inverse.Some? ==> forall c :: c in created ==> PropertyOf(heap.entities, c, inverse.value) == EntityRef(owner)
    ensures |objects| == 0 ==> created == [] && heap.entities == old(heap.entities)
    ensures |chosen| == |objects|
    ensures Population.Resolved(ports, old(heap.entities), heap.entities, created, chosen, {},
                                context.GetMetaProperty(ports.metamodel).rangeClass)
  {
    ghost var start := heap.entities;
    created, chosen := ResolveObjects(ports, providers, heap, context, objects);
    var inverse := context.GetMetaProperty(ports.metamodel).inverse;
    if inverse.Some? {
      ghost var mid := heap.entities;
      Population.PointInverseAt(heap, created, inverse.value, owner);
      forall x | x in start
        ensures x in heap.entities && heap.entities[x] == start[x]
      {
        assert x in mid && mid[x] == start[x];
        assert x !in created;
      }
    }
  }

  /** The first loop of `createEntityCollection`: every object resolved, in order, against the instances built so far. */
  method ResolveObjects(ports: Ports, providers: ProviderPorts, heap: EntityHeap, context: MappingContext,
                        objects: seq<ImportedObject>) returns (created: seq<EntityId>, ghost chosen: seq<EntityId>)
    requires heap.Valid() && FindsInPool(ports)
    modifies heap
    ensures heap.Valid() && |chosen| == |objects|
    ensures Population.Resolved(ports, old(heap.entities), heap.entities, created, chosen, {},
                                context.GetMetaProperty(ports.metamodel).rangeClass)
    ensures |objects| == 0 ==> created == [] && heap.entities == old(heap.entities)
  {
    created, chosen := [], [];
    if |objects| == 0 {
      return;
    }
    ghost var rangeClass := context.GetMetaProperty(ports.metamodel).rangeClass;
    var i := 0;
    while i < |objects|
      invariant 0 <= i <= |objects| && |chosen| == i && heap.Valid()
      invariant Population.Resolved(ports, old(heap.entities), heap.entities, created, chosen, {}, rangeClass)
    {
      ghost var before := heap.entities;
      var c := PopulateReferenceEntity(ports, providers, heap, context, created, Some(objects[i]));
      assert {c} + {} == {c};
      Population.ResolvedStep(ports, old(heap.entities), before, heap.entities, created, chosen, {}, rangeClass, c, {});
      if c !in created {
        created := created + [c];
      }
      chosen := chosen + [c];
      i := i + 1;
    }
  }

  /**
   * `createOneToManyCollection`: the owner's current collection, or a new
   * empty one of the property's collection type, extended by one instance
   * for a null or single-object raw value and by the built instances for an
   * object list (`Collection.add` and `addAll`, so a set keeps an instance
   * once); null for an unsupported collection type. A current value that is
   * not a collection is treated as absent. `added` is what was added.
   */
  method CreateOneToManyCollection(ports: Ports, providers: ProviderPorts, heap: EntityHeap, owner: EntityId,
                                   context: MappingContext)
    returns (v: Value, ghost added: seq<EntityId>, ghost chosen: seq<EntityId>)
    requires heap.Valid() && owner in heap.entities && FindsInPool(ports)
    modifies heap
    ensures heap.Valid() && Grows(old(heap.entities), heap.entities)
    ensures var current := PropertyOf(old(heap.entities), owner, context.propertyMapping.entityPropertyName);
      var empty := Population.EmptyCollection(context.GetMetaProperty(ports.metamodel).javaType);
      var raw := providers.rawValue(context);
      (v == Null <==> !current.Collection? && empty.None?) &&
      (v == Null ==> heap.entities == old(heap.entities)) &&
      (v != Null ==> v.Collection? && forall e :: e in v.members ==> e in heap.entities || (current.Collection? && e in current.members)) &&
      (current.Collection? ==> v.kind == current.kind && current.members <= v.members) &&
      (!current.Collection? && empty.Some? ==> v.kind == empty.value) &&
      (v != Null && (raw == Null || raw.Object?) ==> |v.members| >= 1) &&
      (v != Null && raw != Null && !raw.Object? && !raw.ObjectList? ==>
         v.members == (if current.Collection? then current.members else []))
    ensures var current := PropertyOf(old(heap.entities), owner, context.propertyMapping.entityPropertyName);
      var base := if current.Collection? then current.members else [];
      var raw := providers.rawValue(context);
      var rangeClass := context.GetMetaProperty(ports.metamodel).rangeClass;
      v != Null ==>
        ((raw == Null || raw.Object?) ==>
           |added| == 1 && v.members == Population.CollectionAdd(v.kind, base, added[0]) &&
           (added[0] in base ||
            (added[0] !in old(heap.entities) && heap.entities[added[0]].isNew && heap.entities[added[0]].metaClass == rangeClass))) &&
        (raw.ObjectList? ==>
           v.members == Population.CollectionAddAll(v.kind, base, added) && |chosen| == |raw.objects| &&
           Population.Resolved(ports, old(heap.entities), heap.entities, added, chosen, {}, rangeClass)) &&
        (raw != Null && !raw.Object? && !raw.ObjectList? ==> added == [] && v.members == base)
  {
    added, chosen := [], [];
    var raw := providers.rawValue(context);
    var current := heap.GetValue(owner, context.propertyMapping.entityPropertyName);
    var kind: CollectionKind;
    var members: seq<EntityId>;
    if current.Collection? {
      kind, members := current.kind, current.members;
    } else {
      var empty := Population.EmptyCollection(context.GetMetaProperty(ports.metamodel).javaType);
      if empty.None? {
        return Null, added, chosen;
      }
      kind, members := empty.value, [];
    }
    if raw == Null || raw.Object? {
      var pool := if current.Collection? then current.members else [];
      var created := PopulateReferenceEntity(ports, providers, heap, context, pool, None);
      members := Population.CollectionAdd(kind, members, created);
      added := [created];
    } else if raw.ObjectList? {
      var created;
      created, chosen := CreateEntityCollection(ports, providers, heap, owner, context, raw.objects);
      members := Population.CollectionAddAll(kind, members, created);
      added := created;
    }
    v := Collection(kind, members);
  }
}
