/**
 * Entity instances and the services the importer calls to create, read,
 * write, find and load them: the abstract stand-in for Jmix's Metadata,
 * EntityValues, EntityStates and DuplicateEntityManager.
 */
module Entities {
  import opened Wrappers
  import opened RawData
  import opened Metadata

  /** An instance: its entity class, its property values and whether it is new (not yet stored). */
  datatype Entity = Entity(metaClass: string, props: map<string, Value>, isNew: bool)

  /** `EntityValues.getValue` on a heap snapshot: an unset property, or an unknown instance, reads as null. */
  function PropertyOf(heap: map<EntityId, Entity>, id: EntityId, name: string): (r: Value)
    ensures id in heap && name in heap[id].props ==> r == heap[id].props[name]
    ensures id !in heap || name !in heap[id].props ==> r == Null
  {
    if id in heap && name in heap[id].props then heap[id].props[name] else Null
  }

  /** `EntityStates.isNew` on a heap snapshot; only an entity instance can be new. */
  predicate IsNewIn(heap: map<EntityId, Entity>, v: Value)
  {
    v.EntityRef? && v.id in heap && heap[v.id].isNew
  }

  /** The heap after one property of one instance is set: that property reads the new value, nothing else changes. */
  function WithProperty(heap: map<EntityId, Entity>, id: EntityId, name: string, value: Value): (r: map<EntityId, Entity>)
    requires id in heap
    ensures r.Keys == heap.Keys
    ensures PropertyOf(r, id, name) == value
    ensures forall n :: n != name ==> PropertyOf(r, id, n) == PropertyOf(heap, id, n)
    ensures forall other :: other in heap && other != id ==> r[other] == heap[other]
    ensures r[id].metaClass == heap[id].metaClass && r[id].isNew == heap[id].isNew
  {
    heap[id := heap[id].(props := heap[id].props[name := value])]
  }

  /** Instances only accumulate: none disappears, none changes its class or its `isNew` flag. */
  ghost predicate Grows(before: map<EntityId, Entity>, after: map<EntityId, Entity>)
  {
    forall id :: id in before ==> id in after && after[id].metaClass == before[id].metaClass && after[id].isNew == before[id].isNew
  }

  /** All entity instances of one import, updated in place like Java objects. */
  class EntityHeap {
    var entities: map<EntityId, Entity>
    var nextId: EntityId

    ghost predicate Valid()
      reads this
    {
      forall id :: id in entities ==> id < nextId
    }

    /** A heap holding the already stored instances. */
    constructor (stored: map<EntityId, Entity>, next: EntityId)
      requires forall id :: id in stored ==> id < next
      ensures Valid() && entities == stored && nextId == next
    {
      entities := stored;
      nextId := next;
    }

    /** `metadata.create`: a new instance of the class, with no values set. */
    method Create(metaClass: string) returns (id: EntityId)
      requires Valid()
      modifies this
      ensures Valid()
      ensures id !in old(entities)
      ensures entities == old(entities)[id := Entity(metaClass, map[], true)]
    {
      id := nextId;
      entities := entities[id := Entity(metaClass, map[], true)];
      nextId := nextId + 1;
    }

    /** `EntityValues.setValue`: one property of one instance changes. */
    method SetValue(id: EntityId, name: string, value: Value)
      requires Valid() && id in entities
      modifies this`entities
      ensures Valid()
      ensures entities == WithProperty(old(entities), id, name, value)
    {
      entities := WithProperty(entities, id, name, value);
    }

    function GetValue(id: EntityId, name: string): Value
      reads this
    {
      PropertyOf(entities, id, name)
    }

    /** `metadata.getClass(entity)`. */
    function MetaClassOf(id: EntityId): string
      reads this
    {
      if id in entities then entities[id].metaClass else ""
    }
  }

  /**
   * The collaborators outside the model, as functions:
   * - `metamodel`: `metaClass.getProperty`;
   * - `customValue`: a user's custom value function, by its id, applied to the raw value and the source object;
   * - `external`: the Double, Date, LocalDate and BigDecimal coercions, given the raw value and the date format;
   * - `find`: `DuplicateEntityManager.find`, searching a pool of instances by property values;
   * - `load`: `DuplicateEntityManager.load(entityClass, propertyValues, plan)`, searching the store.
   */
  datatype Ports = Ports(
    metamodel: Metamodel,
    customValue: (nat, Value, ImportedObject) -> Value,
    external: (JavaType, Value, Option<string>) -> Value,
    find: (map<EntityId, Entity>, seq<EntityId>, map<string, Value>) -> Option<EntityId>,
    load: (string, map<string, Value>) -> Option<EntityId>)

  /** `find` answers with a member of the pool it was given (an instance that exists), or with null. */
  ghost predicate FindsInPool(ports: Ports)
  {
    forall heap, pool, values :: ports.find(heap, pool, values).Some? ==>
      ports.find(heap, pool, values).value in pool && ports.find(heap, pool, values).value in heap
  }
}
