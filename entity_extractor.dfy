/**
 * EntityExtractorImpl: builds entity instances from imported data items by
 * the `model.configuration` mappings. In the batch form an item whose lookup
 * values match an instance already built is merged into that instance, and
 * new associated instances are pooled per mapping so that later items can
 * reuse them.
 */
module EntityExtractor {
  import opened Wrappers
  import opened RawData
  import opened Coercion
  import opened Entities
  import opened ModelConfiguration
  import opened Binding
  import opened Population

  /** EntityExtractionResult: an instance and the data item it was last populated from. */
  datatype ExtractionResult = ExtractionResult(entity: EntityId, importedDataItem: ImportedDataItem)

  /** `findNotEqualValue`: some lookup value differs from the instance's value of that property. */
  predicate FindNotEqualValue(heap: map<EntityId, Entity>, values: map<string, Value>, entity: EntityId)
  {
    exists name :: name in values && values[name] != PropertyOf(heap, entity, name)
  }

  /** The first result, from the `i`-th on, whose instance agrees with every lookup value. */
  function FirstAgreeing(heap: map<EntityId, Entity>, values: map<string, Value>,
                         results: seq<ExtractionResult>, i: nat): (r: Option<nat>)
    requires i <= |results|
    ensures r.Some? ==> i <= r.value < |results| && !FindNotEqualValue(heap, values, results[r.value].entity)
    ensures r.Some? ==> forall j :: i <= j < r.value ==> FindNotEqualValue(heap, values, results[j].entity)
    ensures r.None? ==> forall j :: i <= j < |results| ==> FindNotEqualValue(heap, values, results[j].entity)
    decreases |results| - i
  {
    if i == |results| then None
    else if !FindNotEqualValue(heap, values, results[i].entity) then Some(i)
    else FirstAgreeing(heap, values, results, i + 1)
  }

  /** `getExistingEntity`: the index of the first result agreeing with the item's lookup values, if any. */
  function GetExistingEntity(heap: map<EntityId, Entity>, values: map<string, Value>,
                             results: seq<ExtractionResult>): (r: Option<nat>)
    ensures r.Some? ==> r.value < |results|
  {
    if |results| == 0 then None else FirstAgreeing(heap, values, results, 0)
  }

  /** The result chosen is the first one that agrees, and none is chosen only when none agrees. */
  lemma ExistingEntityIsFirstAgreeing(heap: map<EntityId, Entity>, values: map<string, Value>,
                                      results: seq<ExtractionResult>)
    ensures var r := GetExistingEntity(heap, values, results);
      (r.None? <==> forall j :: 0 <= j < |results| ==> FindNotEqualValue(heap, values, results[j].entity)) &&
      (r.Some? ==> !FindNotEqualValue(heap, values, results[r.value].entity) &&
                   forall j :: 0 <= j < r.value ==> FindNotEqualValue(heap, values, results[j].entity))
  {
    if |results| > 0 {
      var r := FirstAgreeing(heap, values, results, 0);
    }
  }

  /** With no lookup values every instance agrees, so every item after the first is merged into the first result. */
  lemma NoLookupValuesMergeIntoFirst(heap: map<EntityId, Entity>, results: seq<ExtractionResult>)
    requires |results| > 0
    ensures GetExistingEntity(heap, map[], results) == Some(0)
  {
    assert !FindNotEqualValue(heap, map[], results[0].entity);
  }

  /** The pool of one mapping after one record: its created object appended unless already there. */
  function AddToPool(pools: map<PropertyMapping, seq<EntityId>>, c: CreatedAssociation): (r: map<PropertyMapping, seq<EntityId>>)
    ensures r.Keys == pools.Keys + {c.propertyMapping}
    ensures c.createdObject in r[c.propertyMapping]
    ensures forall m :: m in pools && m != c.propertyMapping ==> r[m] == pools[m]
    ensures forall m :: m in pools ==> pools[m] <= r[m]
  {
    var pool := if c.propertyMapping in pools then pools[c.propertyMapping] else [];
    pools[c.propertyMapping := if c.createdObject in pool then pool else pool + [c.createdObject]]
  }

  /** Every pool lists distinct instances. */
  ghost predicate PoolsDistinct(pools: map<PropertyMapping, seq<EntityId>>)
  {
    forall m :: m in pools ==> Distinct(pools[m])
  }

  /** Every pooled instance is a new instance of the heap. */
  ghost predicate PoolsNew(heap: map<EntityId, Entity>, pools: map<PropertyMapping, seq<EntityId>>)
  {
    forall m, e :: m in pools && e in pools[m] ==> e in heap && heap[e].isNew
  }

  /**
   * `fillCreatedAssociations` on the pools by mapping: the records taken in
   * order, each adding its created object to its mapping's pool.
   */
  function FillPools(pools: map<PropertyMapping, seq<EntityId>>, cs: seq<CreatedAssociation>): (r: map<PropertyMapping, seq<EntityId>>)
    ensures pools.Keys <= r.Keys
    decreases |cs|
  {
    if |cs| == 0 then pools
    else AddToPool(FillPools(pools, cs[..|cs| - 1]), cs[|cs| - 1])
  }

  /** Every recorded instance ends up in its mapping's pool, and no pooled instance is dropped. */
  lemma {:induction false} FillPoolsCollects(pools: map<PropertyMapping, seq<EntityId>>, cs: seq<CreatedAssociation>)
    ensures var r := FillPools(pools, cs);
      (forall i :: 0 <= i < |cs| ==> cs[i].propertyMapping in r && cs[i].createdObject in r[cs[i].propertyMapping]) &&
      (forall m :: m in pools ==> pools[m] <= r[m])
  {
    forall i | 0 <= i < |cs|
      ensures cs[i].propertyMapping in FillPools(pools, cs) &&
              cs[i].createdObject in FillPools(pools, cs)[cs[i].propertyMapping]
    {
      FillPoolsHas(pools, cs, i);
    }
    forall m | m in pools
      ensures pools[m] <= FillPools(pools, cs)[m]
    {
      FillPoolsGrows(pools, cs, m);
    }
  }

  /** The `i`-th record's instance is in its mapping's pool. */
  lemma {:induction false} FillPoolsHas(pools: map<PropertyMapping, seq<EntityId>>, cs: seq<CreatedAssociation>, i: nat)
    requires i < |cs|
    ensures cs[i].propertyMapping in FillPools(pools, cs)
    ensures cs[i].createdObject in FillPools(pools, cs)[cs[i].propertyMapping]
    decreases |cs|
  {
    var n := |cs| - 1;
    if i < n {
      FillPoolsHas(pools, cs[..n], i);
      assert cs[..n][i] == cs[i];
      PrefixKeepsMembers(FillPools(pools, cs[..n])[cs[i].propertyMapping], FillPools(pools, cs)[cs[i].propertyMapping],
                         cs[i].createdObject);
    }
  }

  /** A pool only grows, at its end. */
  lemma {:induction false} FillPoolsGrows(pools: map<PropertyMapping, seq<EntityId>>, cs: seq<CreatedAssociation>,
                                          m: PropertyMapping)
    requires m in pools
    ensures m in FillPools(pools, cs) && pools[m] <= FillPools(pools, cs)[m]
    decreases |cs|
  {
    if |cs| > 0 {
      var n := |cs| - 1;
      FillPoolsGrows(pools, cs[..n], m);
      PrefixOfPrefix(pools[m], FillPools(pools, cs[..n])[m], FillPools(pools, cs)[m]);
    }
  }

  lemma PrefixKeepsMembers(a: seq<EntityId>, b: seq<EntityId>, x: EntityId)
    requires a <= b && x in a
    ensures x in b
  {
    var i :| 0 <= i < |a| && a[i] == x;
    assert b[i] == x;
  }

  lemma PrefixOfPrefix(a: seq<EntityId>, b: seq<EntityId>, c: seq<EntityId>)
    requires a <= b && b <= c
    ensures a <= c
  {
    assert c[..|a|] == b[..|a|];
  }

  /** A pooled instance that was not pooled before was named, for that mapping, by one of the records. */
  lemma {:induction false} FillPoolsOnlyRecorded(pools: map<PropertyMapping, seq<EntityId>>, cs: seq<CreatedAssociation>,
                                                  m: PropertyMapping, e: EntityId)
    requires m in FillPools(pools, cs) && e in FillPools(pools, cs)[m]
    requires !(m in pools && e in pools[m])
    ensures exists i :: 0 <= i < |cs| && cs[i].propertyMapping == m && cs[i].createdObject == e
    decreases |cs|
  {
    var n := |cs| - 1;
    var previous := FillPools(pools, cs[..n]);
    if !(m == cs[n].propertyMapping && e == cs[n].createdObject) {
      assert m in previous && e in previous[m];
      FillPoolsOnlyRecorded(pools, cs[..n], m, e);
      var i :| 0 <= i < n && cs[..n][i].propertyMapping == m && cs[..n][i].createdObject == e;
      assert cs[..n][i] == cs[i];
    }
  }

  /** Each pool stays duplicate-free. */
  lemma {:induction false} FillPoolsDistinct(pools: map<PropertyMapping, seq<EntityId>>, cs: seq<CreatedAssociation>)
    requires PoolsDistinct(pools)
    ensures PoolsDistinct(FillPools(pools, cs))
    decreases |cs|
  {
    if |cs| > 0 {
      FillPoolsDistinct(pools, cs[..|cs| - 1]);
    }
  }

  /** The pools gain only new instances when the records name new instances. */
  lemma PoolsStayNew(heap: map<EntityId, Entity>, pools: map<PropertyMapping, seq<EntityId>>, cs: seq<CreatedAssociation>)
    requires PoolsNew(heap, pools) && AllNew(heap, cs)
    ensures PoolsNew(heap, FillPools(pools, cs))
  {
    var r := FillPools(pools, cs);
    assert PoolsNew(heap, r) by {
      forall m, e | m in r && e in r[m]
        ensures e in heap && heap[e].isNew
      {
        if !(m in pools && e in pools[m]) {
          FillPoolsOnlyRecorded(pools, cs, m, e);
          var i :| 0 <= i < |cs| && cs[i].propertyMapping == m && cs[i].createdObject == e;
          assert cs[i].createdObject in heap && heap[cs[i].createdObject].isNew;
        }
      }
    }
  }

  /** `fillCreatedAssociations`: the loop over the entity's created associations. */
  method FillCreatedAssociations(info: EntityInfo, pools: map<PropertyMapping, seq<EntityId>>)
    returns (r: map<PropertyMapping, seq<EntityId>>)
    ensures r == FillPools(pools, info.createdAssociations)
  {
    var cs := info.createdAssociations;
    r := pools;
    var i := 0;
    while i < |cs|
      invariant 0 <= i <= |cs|
      invariant r == FillPools(pools, cs[..i])
    {
      assert cs[..i + 1][..i] == cs[..i];
      r := AddToPool(r, cs[i]);
      i := i + 1;
    }
    assert cs[..|cs|] == cs;
  }

  /** Every result's instance is new, of the configured class, built by this extraction, and no two results share one. */
  ghost predicate ResultsFresh(before: map<EntityId, Entity>, heap: map<EntityId, Entity>, entityClass: string,
                               results: seq<ExtractionResult>)
  {
    (forall j :: 0 <= j < |results| ==>
       results[j].entity in heap && results[j].entity !in before &&
       heap[results[j].entity].isNew && heap[results[j].entity].metaClass == entityClass) &&
    (forall j, k :: 0 <= j < k < |results| ==> results[j].entity != results[k].entity)
  }

  /** No configuration mapping is a simple one, so no item has lookup values. */
  predicate OnlyAssociations(config: ImportConfiguration)
    reads config
  {
    forall k :: 0 <= k < |config.propertyMappings| ==> config.propertyMappings[k].isAssociation
  }

  /** `extract` for one item: a new instance of the configured class, populated from the item. */
  method ExtractOne(ports: Ports, heap: EntityHeap, config: ImportConfiguration, item: ImportedDataItem)
    returns (r: ExtractionResult, ghost states: seq<map<EntityId, Entity>>, ghost steps: seq<set<EntityId>>,
             ghost reused: set<EntityId>)
    requires heap.Valid() && FindsInPool(ports) && config.entityMetaClass.Some?
    modifies heap
    ensures heap.Valid() && Grows(old(heap.entities), heap.entities)
    ensures ResultsFresh(old(heap.entities), heap.entities, config.entityMetaClass.value, [r])
    ensures r.importedDataItem == item
    ensures Populated(ports, config.Formats(), config.entityMetaClass.value, config.propertyMappings, item.AsObject(), None,
                      r.entity, old(heap.entities)[r.entity := Entity(config.entityMetaClass.value, map[], true)],
                      heap.entities, states, steps, reused)
  {
    var entity := heap.Create(config.entityMetaClass.value);
    var info;
    info, states, steps, reused := PopulateProperties(ports, heap, entity, config, item);
    r := ExtractionResult(info.entity, item);
  }

  /** `getExistingEntity` on the heap's current state. */
  method FindExisting(ports: Ports, heap: EntityHeap, config: ImportConfiguration, item: ImportedDataItem,
                      results: seq<ExtractionResult>) returns (existing: Option<nat>)
    requires config.entityMetaClass.Some?
    ensures |results| == 0 ==> existing.None?
    ensures |results| > 0 ==> existing == GetExistingEntity(heap.entities,
      PropertyValues(ports, config.Formats(), config.entityMetaClass.value, config.propertyMappings, item.AsObject()), results)
    ensures OnlyAssociations(config) && |results| > 0 ==> existing == Some(0)
  {
    existing := None;
    if |results| > 0 {
      var values := GetPropertyValuesOfItem(ports, config, item);
      existing := GetExistingEntity(heap.entities, values, results);
      if OnlyAssociations(config) {
        if |values| > 0 {
          var name :| name in values;
          PropertyValuesKeys(ports, config.Formats(), config.entityMetaClass.value, config.propertyMappings, item.AsObject(), name);
        }
        NoLookupValuesMergeIntoFirst(heap.entities, results);
      }
    }
  }

  /**
   * The merge rule of the batch `extract` for one item against the heap `h`
   * it meets: merged into the first result whose instance agrees with the
   * item's lookup values, which then records the item, or else appended with
   * an instance not in `h`.
   */
  ghost predicate MergeStep(ports: Ports, formats: Formats, entityClass: string, ms: seq<PropertyMapping>,
                            h: map<EntityId, Entity>, item: ImportedDataItem,
                            results: seq<ExtractionResult>, next: seq<ExtractionResult>)
  {
    var existing := GetExistingEntity(h, PropertyValues(ports, formats, entityClass, ms, item.AsObject()), results);
    if existing.None? then
      |next| == |results| + 1 && next[..|results|] == results &&
      next[|results|].importedDataItem == item && next[|results|].entity !in h
    else
      next == results[existing.value := results[existing.value].(importedDataItem := item)]
  }

  /**
   * The instance the merge rule sends the item to: that of the first agreeing
   * result, or else that of the result appended.
   */
  ghost predicate MergeTargetIs(ports: Ports, formats: Formats, entityClass: string, ms: seq<PropertyMapping>,
                                h: map<EntityId, Entity>, item: ImportedDataItem,
                                results: seq<ExtractionResult>, next: seq<ExtractionResult>, target: EntityId)
  {
    var existing := GetExistingEntity(h, PropertyValues(ports, formats, entityClass, ms, item.AsObject()), results);
    if existing.None? then |results| < |next| && target == next[|results|].entity
    else target == results[existing.value].entity
  }

  /** The ghost record of one item's population: the instance populated and the trace of its mappings. */
  datatype ItemRun = ItemRun(target: EntityId, states: seq<map<EntityId, Entity>>, steps: seq<set<EntityId>>,
                             reused: set<EntityId>)

  /**
   * One item of the batch `extract`, from the heap `h` and the pools `pools`
   * it meets: the merge rule, then the instance the item went to (placed as a
   * new instance when no result agreed) populated from the item with those
   * pools, ending in `h'`, and the pools extended by the associated instances
   * that population created.
   */
  ghost predicate ItemExtracted(ports: Ports, formats: Formats, entityClass: string, ms: seq<PropertyMapping>,
                                h: map<EntityId, Entity>, h': map<EntityId, Entity>, item: ImportedDataItem,
                                results: seq<ExtractionResult>, next: seq<ExtractionResult>,
                                pools: map<PropertyMapping, seq<EntityId>>, pools': map<PropertyMapping, seq<EntityId>>,
                                run: ItemRun)
  {
    MergeStep(ports, formats, entityClass, ms, h, item, results, next) &&
    MergeTargetIs(ports, formats, entityClass, ms, h, item, results, next, run.target) &&
    var placed := if run.target in h then h else h[run.target := Entity(entityClass, map[], true)];
    Populated(ports, formats, entityClass, ms, item.AsObject(), Some(pools), run.target, placed, h',
              run.states, run.steps, run.reused) &&
    pools' == FillPools(pools, CreatedAssociations(h', run.target, ms, 0))
  }

  /**
   * One step of the batch `extract`: the item merged into the first agreeing
   * result, or added with a new instance; that instance, `target`, is then
   * populated from the item with the pools, starting from `placed`.
   */
  method ExtractItem(ports: Ports, heap: EntityHeap, config: ImportConfiguration, item: ImportedDataItem,
                     results: seq<ExtractionResult>, pools: map<PropertyMapping, seq<EntityId>>, ghost origin: map<EntityId, Entity>)
    returns (nextResults: seq<ExtractionResult>, nextPools: map<PropertyMapping, seq<EntityId>>,
             target: EntityId, ghost placed: map<EntityId, Entity>, ghost states: seq<map<EntityId, Entity>>,
             ghost steps: seq<set<EntityId>>, ghost reused: set<EntityId>)
    requires heap.Valid() && FindsInPool(ports) && config.entityMetaClass.Some?
    requires Grows(origin, heap.entities) && ResultsFresh(origin, heap.entities, config.entityMetaClass.value, results)
    requires PoolsDistinct(pools) && PoolsNew(heap.entities, pools)
    modifies heap
    ensures heap.Valid() && Grows(old(heap.entities), heap.entities) && Grows(origin, heap.entities)
    ensures ResultsFresh(origin, heap.entities, config.entityMetaClass.value, nextResults)
    ensures PoolsDistinct(nextPools) && PoolsNew(heap.entities, nextPools)
    ensures MergeStep(ports, config.Formats(), config.entityMetaClass.value, config.propertyMappings, old(heap.entities),
                      item, results, nextResults)
    ensures exists j :: 0 <= j < |nextResults| && nextResults[j].importedDataItem == item && nextResults[j].entity == target
    ensures |results| <= |nextResults| <= |results| + 1
    ensures forall j :: 0 <= j < |nextResults| ==>
      nextResults[j].importedDataItem == item || (j < |results| && nextResults[j].importedDataItem == results[j].importedDataItem)
    ensures placed == if target in old(heap.entities) then old(heap.entities)
                      else old(heap.entities)[target := Entity(config.entityMetaClass.value, map[], true)]
    ensures target in placed && placed[target].metaClass == config.entityMetaClass.value
    ensures Populated(ports, config.Formats(), config.entityMetaClass.value, config.propertyMappings, item.AsObject(),
                      Some(pools), target, placed, heap.entities, states, steps, reused)
    ensures OnlyAssociations(config) && |results| > 0 ==> |nextResults| == |results|
    ensures nextPools == FillPools(pools, CreatedAssociations(heap.entities, target, config.propertyMappings, 0))
    ensures ItemExtracted(ports, config.Formats(), config.entityMetaClass.value, config.propertyMappings,
                          old(heap.entities), heap.entities, item, results, nextResults, pools, nextPools,
                          ItemRun(target, states, steps, reused))
  {
    target, nextResults := MergeItem(ports, heap, config, item, results, origin);
    placed := heap.entities;
    nextPools, states, steps, reused := PopulateAndPool(ports, heap, config, item, target, pools);
    FreshAfterGrowth(origin, placed, heap.entities, config.entityMetaClass.value, nextResults);
  }

  /** The merge rule applied to the item: the result it goes to, with a new instance placed when none agrees. */
  method MergeItem(ports: Ports, heap: EntityHeap, config: ImportConfiguration, item: ImportedDataItem,
                   results: seq<ExtractionResult>, ghost origin: map<EntityId, Entity>)
    returns (target: EntityId, nextResults: seq<ExtractionResult>)
    requires heap.Valid() && config.entityMetaClass.Some?
    requires Grows(origin, heap.entities) && ResultsFresh(origin, heap.entities, config.entityMetaClass.value, results)
    modifies heap
    ensures heap.Valid() && Grows(old(heap.entities), heap.entities) && Grows(origin, heap.entities)
    ensures ResultsFresh(origin, heap.entities, config.entityMetaClass.value, nextResults)
    ensures MergeStep(ports, config.Formats(), config.entityMetaClass.value, config.propertyMappings, old(heap.entities),
                      item, results, nextResults)
    ensures exists j :: 0 <= j < |nextResults| && nextResults[j].importedDataItem == item && nextResults[j].entity == target
    ensures |results| <= |nextResults| <= |results| + 1
    ensures forall j :: 0 <= j < |nextResults| ==>
      nextResults[j].importedDataItem == item || (j < |results| && nextResults[j].importedDataItem == results[j].importedDataItem)
    ensures heap.entities == if target in old(heap.entities) then old(heap.entities)
                             else old(heap.entities)[target := Entity(config.entityMetaClass.value, map[], true)]
    ensures target in heap.entities && heap.entities[target].metaClass == config.entityMetaClass.value
    ensures OnlyAssociations(config) && |results| > 0 ==> |nextResults| == |results|
    ensures MergeTargetIs(ports, config.Formats(), config.entityMetaClass.value, config.propertyMappings,
                          old(heap.entities), item, results, nextResults, target)
  {
    var entityClass := config.entityMetaClass.value;
    var existing := FindExisting(ports, heap, config, item, results);
    target, nextResults := PlaceItem(heap, entityClass, item, results, existing, origin);
    ghost var at := if existing.None? then |results| else existing.value;
    assert nextResults[at].importedDataItem == item && nextResults[at].entity == target;
    MergeStepShape(ports, config.Formats(), entityClass, config.propertyMappings, old(heap.entities), item, results, nextResults);
  }

  /** A merge step keeps every earlier item but the one it replaces, and adds at most one result. */
  lemma MergeStepShape(ports: Ports, formats: Formats, entityClass: string, ms: seq<PropertyMapping>,
                       h: map<EntityId, Entity>, item: ImportedDataItem,
                       results: seq<ExtractionResult>, next: seq<ExtractionResult>)
    requires MergeStep(ports, formats, entityClass, ms, h, item, results, next)
    ensures |results| <= |next| <= |results| + 1
    ensures forall j :: 0 <= j < |next| ==>
      next[j].importedDataItem == item || (j < |results| && next[j].importedDataItem == results[j].importedDataItem)
  {
    var existing := GetExistingEntity(h, PropertyValues(ports, formats, entityClass, ms, item.AsObject()), results);
    if existing.None? {
      forall j | 0 <= j < |results| ensures next[j] == results[j] {
        assert next[..|results|][j] == next[j];
      }
    }
  }

  /** The result the item goes to: the agreeing one found, whose item it replaces, or a new instance appended. */
  method PlaceItem(heap: EntityHeap, entityClass: string, item: ImportedDataItem, results: seq<ExtractionResult>,
                   existing: Option<nat>, ghost origin: map<EntityId, Entity>)
    returns (target: EntityId, nextResults: seq<ExtractionResult>)
    requires existing.Some? ==> existing.value < |results|
    requires heap.Valid() && Grows(origin, heap.entities) && ResultsFresh(origin, heap.entities, entityClass, results)
    modifies heap
    ensures heap.Valid() && Grows(old(heap.entities), heap.entities) && Grows(origin, heap.entities)
    ensures target in heap.entities
    ensures ResultsFresh(origin, heap.entities, entityClass, nextResults)
    ensures existing.None? ==> nextResults == results + [ExtractionResult(target, item)]
    ensures existing.None? ==>
      target !in old(heap.entities) && heap.entities == old(heap.entities)[target := Entity(entityClass, map[], true)]
    ensures existing.Some? ==>
      heap.entities == old(heap.entities) && target == results[existing.value].entity &&
      nextResults == results[existing.value := results[existing.value].(importedDataItem := item)]
  {
    if existing.None? {
      ghost var before := heap.entities;
      target := heap.Create(entityClass);
      FreshAfterGrowth(origin, before, heap.entities, entityClass, results);
      nextResults := results + [ExtractionResult(target, item)];
    } else {
      target := results[existing.value].entity;
      nextResults := results[existing.value := results[existing.value].(importedDataItem := item)];
    }
  }

  /** The instance populated from the item with the pools, and the pools extended by the new instances it reached. */
  method PopulateAndPool(ports: Ports, heap: EntityHeap, config: ImportConfiguration, item: ImportedDataItem,
                         target: EntityId, pools: map<PropertyMapping, seq<EntityId>>)
    returns (nextPools: map<PropertyMapping, seq<EntityId>>, ghost states: seq<map<EntityId, Entity>>,
             ghost steps: seq<set<EntityId>>, ghost reused: set<EntityId>)
    requires heap.Valid() && target in heap.entities && FindsInPool(ports)
    requires PoolsDistinct(pools) && PoolsNew(heap.entities, pools)
    modifies heap
    ensures heap.Valid() && Grows(old(heap.entities), heap.entities)
    ensures PoolsDistinct(nextPools) && PoolsNew(heap.entities, nextPools)
    ensures nextPools == FillPools(pools, CreatedAssociations(heap.entities, target, config.propertyMappings, 0))
    ensures Populated(ports, config.Formats(), old(heap.entities)[target].metaClass, config.propertyMappings,
                      item.AsObject(), Some(pools), target, old(heap.entities), heap.entities, states, steps, reused)
  {
    var info;
    info, states, steps, reused := PopulatePropertiesWithPools(ports, heap, target, config, item, pools);
    PoolsStayNew(heap.entities, pools, info.createdAssociations);
    FillPoolsDistinct(pools, info.createdAssociations);
    nextPools := FillCreatedAssociations(info, pools);
  }

  /** Growth of the heap keeps the results' instances as they were. */
  lemma FreshAfterGrowth(origin: map<EntityId, Entity>, before: map<EntityId, Entity>, after: map<EntityId, Entity>,
                         entityClass: string, results: seq<ExtractionResult>)
    requires ResultsFresh(origin, before, entityClass, results) && Grows(before, after)
    ensures ResultsFresh(origin, after, entityClass, results)
  {
  }

  /**
   * `extract` for all items: each item populates the first result that agrees
   * with its lookup values (then records that item) or a new instance (then
   * added as a result); the pools collect the new associated instances.
   * `heaps[i]`, `trace[i]` and `poolTrace[i]` are the heap, the results and
   * the pools the `i`-th item meets, starting from no pools, and `runs[i]` is
   * that item's population.
   */
  method ExtractAll(ports: Ports, heap: EntityHeap, config: ImportConfiguration, data: ImportedData)
    returns (results: seq<ExtractionResult>, ghost heaps: seq<map<EntityId, Entity>>,
             ghost trace: seq<seq<ExtractionResult>>, ghost poolTrace: seq<map<PropertyMapping, seq<EntityId>>>,
             ghost runs: seq<ItemRun>)
    requires heap.Valid() && FindsInPool(ports) && config.entityMetaClass.Some?
    modifies heap
    ensures heap.Valid() && Grows(old(heap.entities), heap.entities)
    ensures ResultsFresh(old(heap.entities), heap.entities, config.entityMetaClass.value, results)
    ensures ExtractedSoFar(ports, config.Formats(), config.entityMetaClass.value, config.propertyMappings, data.items,
                           |data.items|, old(heap.entities), heap.entities, results, heaps, trace, poolTrace, runs)
    ensures |results| <= |data.items|
    ensures |data.items| > 0 ==> |results| > 0
    ensures forall j :: 0 <= j < |results| ==> results[j].importedDataItem in data.items
    ensures |data.items| > 0 ==> exists j :: 0 <= j < |results| && results[j].importedDataItem == data.items[|data.items| - 1]
    ensures OnlyAssociations(config) ==> |results| <= 1
  {
    var items := data.items;
    ghost var origin := heap.entities;
    ghost var only := OnlyAssociations(config);
    results := [];
    var pools: map<PropertyMapping, seq<EntityId>> := map[];
    heaps, trace, poolTrace, runs := [heap.entities], [[]], [pools], [];
    var i := 0;
    while i < |items|
      invariant heap.Valid() && i <= |items|
      invariant Extracting(ports, config.Formats(), config.entityMetaClass.value, config.propertyMappings, only, items, i,
                           origin, heap.entities, results, pools, heaps, trace, poolTrace, runs)
    {
      results, pools, heaps, trace, poolTrace, runs :=
        ExtractNext(ports, heap, config, items, i, results, pools, origin, heaps, trace, poolTrace, runs);
      i := i + 1;
    }
    assert items[..|items|] == items;
  }

  /** What the batch `extract` loop keeps after `n` items. */
  ghost predicate Extracting(ports: Ports, formats: Formats, entityClass: string, ms: seq<PropertyMapping>, only: bool,
                             items: seq<ImportedDataItem>, n: nat, start: map<EntityId, Entity>,
                             cur: map<EntityId, Entity>, results: seq<ExtractionResult>,
                             pools: map<PropertyMapping, seq<EntityId>>,
                             heaps: seq<map<EntityId, Entity>>, trace: seq<seq<ExtractionResult>>,
                             poolTrace: seq<map<PropertyMapping, seq<EntityId>>>, runs: seq<ItemRun>)
  {
    n <= |items| && Grows(start, cur) && ResultsFresh(start, cur, entityClass, results) &&
    ExtractedSoFar(ports, formats, entityClass, ms, items, n, start, cur, results, heaps, trace, poolTrace, runs) &&
    poolTrace[n] == pools &&
    |results| <= n && (n > 0 ==> |results| > 0) &&
    (forall j :: 0 <= j < |results| ==> results[j].importedDataItem in items[..n]) &&
    (n > 0 ==> exists j :: 0 <= j < |results| && results[j].importedDataItem == items[n - 1]) &&
    (only ==> |results| <= 1) &&
    PoolsDistinct(pools) && PoolsNew(cur, pools)
  }

  /** One turn of the batch `extract` loop: the `i`-th item extracted, and the loop's facts carried to `i + 1`. */
  method ExtractNext(ports: Ports, heap: EntityHeap, config: ImportConfiguration, items: seq<ImportedDataItem>, i: nat,
                     results: seq<ExtractionResult>, pools: map<PropertyMapping, seq<EntityId>>,
                     ghost origin: map<EntityId, Entity>, ghost heaps: seq<map<EntityId, Entity>>,
                     ghost trace: seq<seq<ExtractionResult>>, ghost poolTrace: seq<map<PropertyMapping, seq<EntityId>>>,
                     ghost runs: seq<ItemRun>)
    returns (results': seq<ExtractionResult>, pools': map<PropertyMapping, seq<EntityId>>,
             ghost heaps': seq<map<EntityId, Entity>>, ghost trace': seq<seq<ExtractionResult>>,
             ghost poolTrace': seq<map<PropertyMapping, seq<EntityId>>>, ghost runs': seq<ItemRun>)
    requires i < |items| && heap.Valid() && FindsInPool(ports) && config.entityMetaClass.Some?
    requires Extracting(ports, config.Formats(), config.entityMetaClass.value, config.propertyMappings,
                        OnlyAssociations(config), items, i, origin, heap.entities, results, pools, heaps, trace,
                        poolTrace, runs)
    modifies heap
    ensures heap.Valid()
    ensures Extracting(ports, config.Formats(), config.entityMetaClass.value, config.propertyMappings,
                       OnlyAssociations(config), items, i + 1, origin, heap.entities, results', pools', heaps', trace',
                       poolTrace', runs')
  {
    ghost var before := heap.entities;
    var target;
    ghost var placed, states, steps, reused;
    results', pools', target, placed, states, steps, reused := ExtractItem(ports, heap, config, items[i], results, pools, origin);
    heaps', trace', poolTrace', runs' := heaps + [heap.entities], trace + [results'], poolTrace + [pools'],
                                         runs + [ItemRun(target, states, steps, reused)];
    ExtractingSnoc(ports, config.Formats(), config.entityMetaClass.value, config.propertyMappings, OnlyAssociations(config),
                   items, i, origin, before, heap.entities, results, results', pools, pools', heaps, trace, poolTrace,
                   runs, ItemRun(target, states, steps, reused));
  }

  /** The loop's facts after one more item extracted by the merge rule. */
  lemma ExtractingSnoc(ports: Ports, formats: Formats, entityClass: string, ms: seq<PropertyMapping>, only: bool,
                       items: seq<ImportedDataItem>, n: nat, start: map<EntityId, Entity>,
                       cur: map<EntityId, Entity>, after: map<EntityId, Entity>,
                       results: seq<ExtractionResult>, next: seq<ExtractionResult>,
                       pools: map<PropertyMapping, seq<EntityId>>, pools': map<PropertyMapping, seq<EntityId>>,
                       heaps: seq<map<EntityId, Entity>>, trace: seq<seq<ExtractionResult>>,
                       poolTrace: seq<map<PropertyMapping, seq<EntityId>>>, runs: seq<ItemRun>, run: ItemRun)
    requires n < |items| && Extracting(ports, formats, entityClass, ms, only, items, n, start, cur, results, pools,
                                       heaps, trace, poolTrace, runs)
    requires Grows(cur, after) && Grows(start, after) && ResultsFresh(start, after, entityClass, next)
    requires PoolsDistinct(pools') && PoolsNew(after, pools')
    requires ItemExtracted(ports, formats, entityClass, ms, cur, after, items[n], results, next, pools, pools', run)
    requires exists j :: 0 <= j < |next| && next[j].importedDataItem == items[n]
    requires only && |results| > 0 ==> |next| == |results|
    ensures Extracting(ports, formats, entityClass, ms, only, items, n + 1, start, after, next, pools',
                       heaps + [after], trace + [next], poolTrace + [pools'], runs + [run])
  {
    ExtractedSnoc(ports, formats, entityClass, ms, items, n, start, cur, after, results, next, pools, pools',
                  heaps, trace, poolTrace, runs, run);
    MergeStepShape(ports, formats, entityClass, ms, cur, items[n], results, next);
    ItemsCovered(items, n, results, next);
  }

  /** The results after one more item carry only the items seen so far. */
  lemma ItemsCovered(items: seq<ImportedDataItem>, n: nat, results: seq<ExtractionResult>, next: seq<ExtractionResult>)
    requires n < |items| && |results| <= |next|
    requires forall j :: 0 <= j < |results| ==> results[j].importedDataItem in items[..n]
    requires forall j :: 0 <= j < |next| ==>
      next[j].importedDataItem == items[n] || (j < |results| && next[j].importedDataItem == results[j].importedDataItem)
    ensures forall j :: 0 <= j < |next| ==> next[j].importedDataItem in items[..n + 1]
  {
    assert items[..n + 1] == items[..n] + [items[n]];
    forall j | 0 <= j < |next|
      ensures next[j].importedDataItem in items[..n + 1]
    {
      if next[j].importedDataItem != items[n] {
        assert results[j].importedDataItem in items[..n];
      }
    }
  }

  /**
   * The first `n` items extracted: a trace of heaps, results and pools that
   * starts from no results and no pools, one `ItemExtracted` step per item.
   */
  ghost predicate ExtractedSoFar(ports: Ports, formats: Formats, entityClass: string, ms: seq<PropertyMapping>,
                                 items: seq<ImportedDataItem>, n: nat, start: map<EntityId, Entity>,
                                 cur: map<EntityId, Entity>, results: seq<ExtractionResult>,
                                 heaps: seq<map<EntityId, Entity>>, trace: seq<seq<ExtractionResult>>,
                                 poolTrace: seq<map<PropertyMapping, seq<EntityId>>>, runs: seq<ItemRun>)
  {
    n <= |items| && |heaps| == |trace| == |poolTrace| == n + 1 && |runs| == n &&
    heaps[0] == start && heaps[n] == cur && trace[0] == [] && trace[n] == results && poolTrace[0] == map[] &&
    forall i :: 0 <= i < n ==>
      Grows(heaps[i], heaps[i + 1]) &&
      ItemExtracted(ports, formats, entityClass, ms, heaps[i], heaps[i + 1], items[i], trace[i], trace[i + 1],
                    poolTrace[i], poolTrace[i + 1], runs[i])
  }

  /** A trace of extraction grows by the step of the next item. */
  lemma ExtractedSnoc(ports: Ports, formats: Formats, entityClass: string, ms: seq<PropertyMapping>,
                      items: seq<ImportedDataItem>, n: nat, start: map<EntityId, Entity>,
                      cur: map<EntityId, Entity>, after: map<EntityId, Entity>,
                      results: seq<ExtractionResult>, next: seq<ExtractionResult>,
                      pools: map<PropertyMapping, seq<EntityId>>, pools': map<PropertyMapping, seq<EntityId>>,
                      heaps: seq<map<EntityId, Entity>>, trace: seq<seq<ExtractionResult>>,
                      poolTrace: seq<map<PropertyMapping, seq<EntityId>>>, runs: seq<ItemRun>, run: ItemRun)
    requires n < |items| && ExtractedSoFar(ports, formats, entityClass, ms, items, n, start, cur, results, heaps, trace,
                                           poolTrace, runs)
    requires poolTrace[n] == pools
    requires Grows(cur, after) && ItemExtracted(ports, formats, entityClass, ms, cur, after, items[n], results, next,
                                                pools, pools', run)
    ensures ExtractedSoFar(ports, formats, entityClass, ms, items, n + 1, start, after, next,
                           heaps + [after], trace + [next], poolTrace + [pools'], runs + [run])
  {
    var heaps', trace', poolTrace', runs' := heaps + [after], trace + [next], poolTrace + [pools'], runs + [run];
    forall i | 0 <= i < n + 1
      ensures Grows(heaps'[i], heaps'[i + 1]) &&
        ItemExtracted(ports, formats, entityClass, ms, heaps'[i], heaps'[i + 1], items[i], trace'[i], trace'[i + 1],
                      poolTrace'[i], poolTrace'[i + 1], runs'[i])
    {
      if i < n {
        assert heaps'[i] == heaps[i] && heaps'[i + 1] == heaps[i + 1] && trace'[i] == trace[i] &&
               trace'[i + 1] == trace[i + 1] && poolTrace'[i] == poolTrace[i] && poolTrace'[i + 1] == poolTrace[i + 1] &&
               runs'[i] == runs[i];
      }
    }
  }
}
