/**
 * What DataImportExecutor does, step by step, as functions of its inputs:
 * the configuration check, the duplicate and pre-import checks an extracted
 * entity goes through, the storing of entities and the record each step
 * leaves in the import result. The collaborators the executor calls
 * (extractor, store, duplicate search, user predicate) are functions given
 * in a `Collaborators` value. The class in executor.dfy is proved against
 * these functions.
 */
module ExecutorSpec {
  import opened Wrappers
  import opened RawData
  import opened Metadata
  import opened Policies
  import opened Entities
  import opened ConfigMapping
  import opened Configuration
  import opened ImportResults
  import EntityExtractor
  import ReferencePopulation
  import Population

  type ExtractionResult = EntityExtractor.ExtractionResult

  // ---------------------------------------------------------------------
  // Validation of the configuration
  // ---------------------------------------------------------------------

  /** The check `validatePropertyMappings` makes of one mapping, without its nested mappings. */
  function NodeError(m: PropertyMapping): (r: Option<string>)
    ensures r.Some? ==> m.ReferenceMultiFieldPropertyMapping?
    ensures m.ReferenceMultiFieldPropertyMapping? ==>
      (r.None? <==> m.referenceImportPolicy.Some? && (m.referenceImportPolicy == Some(CREATE) || |m.lookupPropertyNames| > 0))
  {
    if !m.ReferenceMultiFieldPropertyMapping? then None
    else if m.referenceImportPolicy.None? then
      Some("Reference import policy is not set for property [" + m.entityPropertyName + "]")
    else if m.referenceImportPolicy.value != CREATE && |m.lookupPropertyNames| == 0 then
      Some("Lookup properties are not set for property [" + m.entityPropertyName + "]")
    else None
  }

  /**
   * `validatePropertyMappings`: the mappings in order, each multi-field one
   * checked before its nested mappings; `Some(message)` is the
   * IllegalStateException that ends the walk.
   */
  function ValidatePropertyMappings(ms: seq<PropertyMapping>): (r: Option<string>)
    decreases ms
  {
    if |ms| == 0 then None
    else
      var first := ValidatePropertyMapping(ms[0]);
      if first.Some? then first else ValidatePropertyMappings(ms[1..])
  }

  function ValidatePropertyMapping(m: PropertyMapping): (r: Option<string>)
    decreases m
  {
    var e := NodeError(m);
    if e.Some? then e
    else if m.ReferenceMultiFieldPropertyMapping? then ValidatePropertyMappings(m.referencePropertyMappings)
    else None
  }

  /** All mappings of a tree in pre-order: each mapping, then its nested mappings, then the next one. */
  function Flatten(ms: seq<PropertyMapping>): (r: seq<PropertyMapping>)
    decreases ms
  {
    if |ms| == 0 then [] else FlattenOne(ms[0]) + Flatten(ms[1..])
  }

  function FlattenOne(m: PropertyMapping): (r: seq<PropertyMapping>)
    decreases m
    ensures |r| > 0 && r[0] == m
  {
    [m] + (if m.ReferenceMultiFieldPropertyMapping? then Flatten(m.referencePropertyMappings) else [])
  }

  /** The reference reading: the error of the first offending mapping of a flat list. */
  function FirstNodeError(ns: seq<PropertyMapping>): (r: Option<string>)
  {
    if |ns| == 0 then None
    else if NodeError(ns[0]).Some? then NodeError(ns[0])
    else FirstNodeError(ns[1..])
  }

  lemma {:induction false} FirstNodeErrorConcat(a: seq<PropertyMapping>, b: seq<PropertyMapping>)
    ensures FirstNodeError(a + b) == if FirstNodeError(a).Some? then FirstNodeError(a) else FirstNodeError(b)
  {
    if |a| > 0 {
      assert (a + b)[0] == a[0];
      assert (a + b)[1..] == a[1..] + b;
      FirstNodeErrorConcat(a[1..], b);
    } else {
      assert a + b == b;
    }
  }

  lemma {:induction false} FirstNodeErrorNone(ns: seq<PropertyMapping>)
    ensures FirstNodeError(ns).None? <==> forall k :: 0 <= k < |ns| ==> NodeError(ns[k]).None?
  {
    if |ns| > 0 {
      FirstNodeErrorNone(ns[1..]);
      assert forall k :: 1 <= k < |ns| ==> ns[k] == ns[1..][k - 1];
    }
  }

  /** The walk reports exactly the first offending mapping in pre-order. */
  lemma {:induction false} ValidationIsFirstNodeError(ms: seq<PropertyMapping>)
    ensures ValidatePropertyMappings(ms) == FirstNodeError(Flatten(ms))
    decreases ms
  {
    if |ms| > 0 {
      MappingValidationIsFirstNodeError(ms[0]);
      ValidationIsFirstNodeError(ms[1..]);
      FirstNodeErrorConcat(FlattenOne(ms[0]), Flatten(ms[1..]));
    }
  }

  lemma {:induction false} MappingValidationIsFirstNodeError(m: PropertyMapping)
    ensures ValidatePropertyMapping(m) == FirstNodeError(FlattenOne(m))
    decreases m
  {
    var rest := if m.ReferenceMultiFieldPropertyMapping? then Flatten(m.referencePropertyMappings) else [];
    assert FlattenOne(m) == [m] + rest;
    FirstNodeErrorConcat([m], rest);
    if m.ReferenceMultiFieldPropertyMapping? {
      ValidationIsFirstNodeError(m.referencePropertyMappings);
    }
  }

  /** A configuration passes exactly when no mapping anywhere in its tree offends. */
  lemma ValidIffNoOffender(ms: seq<PropertyMapping>)
    ensures ValidatePropertyMappings(ms).None? <==>
      forall k :: 0 <= k < |Flatten(ms)| ==> NodeError(Flatten(ms)[k]).None?
  {
    ValidationIsFirstNodeError(ms);
    FirstNodeErrorNone(Flatten(ms));
  }

  /**
   * The executor repeats the check the multi-field builder makes: a mapping
   * the builder refuses is refused with the same message, one it builds passes.
   */
  lemma BuilderAndExecutorAgree(name: string, dataField: Option<string>, ms: seq<PropertyMapping>,
                                lookups: seq<string>, policy: Option<ReferenceImportPolicy>, byAll: bool)
    ensures var built := BuildMultiField(name, dataField, ms, lookups, policy, byAll);
      var m := ReferenceMultiFieldPropertyMapping(name, dataField, ms, EffectiveLookupNames(ms, lookups, byAll), policy);
      (built.Success? <==> NodeError(m).None?) && (built.Failure? ==> NodeError(m) == Some(built.error))
  {
  }

  // ---------------------------------------------------------------------
  // Collaborators
  // ---------------------------------------------------------------------

  /** What the user's pre-import predicate does with one extraction result. */
  datatype PredicateOutcome = Answered(accept: bool) | PredicateThrew(message: string)

  /**
   * `entityImportExport.importEntities` on one entity followed by picking the
   * imported instance of the configured class: the stored instance's id, or
   * the exception raised (EntityValidationException with its message and its
   * `toString`, PersistenceException, or any other, such as finding no
   * instance of the configured class).
   */
  datatype StoreOutcome =
    | Stored(id: StoredId)
    | ValidationFailed(message: string, description: string)
    | PersistenceFailed(message: string)
    | OtherFailure(message: string)

  /**
   * - `extractAll` / `extractOne`: EntityExtractor on all items or one item (a failure is the exception's message; one item may give null);
   * - `load`: DuplicateEntityManager.load of an entity under a uniqueness rule, on the current heap;
   * - `preImportPredicate`: the configured predicate, by its id;
   * - `store`: storing one entity;
   * - `describeEntity` / `describeItem`: the `toString` of an entity and of a data item;
   * - `providers`, `metamodel`: what EntityPropertiesPopulator needs to re-populate a duplicate.
   */
  datatype Collaborators = Collaborators(
    extractAll: (ImportConfiguration, seq<ImportedDataItem>) -> Result<seq<ExtractionResult>, string>,
    extractOne: (ImportConfiguration, ImportedDataItem) -> Result<Option<EntityId>, string>,
    load: (map<EntityId, Entity>, EntityId, UniqueEntityConfiguration) -> Option<EntityId>,
    preImportPredicate: (nat, ExtractionResult) -> PredicateOutcome,
    store: EntityId -> StoreOutcome,
    describeEntity: EntityId -> string,
    describeItem: ImportedDataItem -> string,
    providers: ReferencePopulation.ProviderPorts,
    metamodel: Metamodel)

  /** `load` answers with an instance that exists, or with null. */
  ghost predicate LoadsFromHeap(env: Collaborators)
  {
    forall heap, entity, rule :: env.load(heap, entity, rule).Some? ==> env.load(heap, entity, rule).value in heap
  }

  // ---------------------------------------------------------------------
  // Duplicate and pre-import checks
  // ---------------------------------------------------------------------

  /** The first uniqueness rule, from position `from` on, under which a stored duplicate is found. */
  datatype Duplicate = NoDuplicate | Duplicate(index: nat, existing: EntityId)

  function FindDuplicate(env: Collaborators, heap: map<EntityId, Entity>, rules: seq<UniqueEntityConfiguration>,
                         entity: EntityId, from: nat): (r: Duplicate)
    decreases |rules| - from
    ensures r.NoDuplicate? <==> forall j :: from <= j < |rules| ==> env.load(heap, entity, rules[j]).None?
    ensures r.Duplicate? ==> from <= r.index < |rules| && env.load(heap, entity, rules[r.index]) == Some(r.existing)
    ensures r.Duplicate? ==> forall j :: from <= j < r.index ==> env.load(heap, entity, rules[j]).None?
  {
    if from >= |rules| then NoDuplicate
    else
      var found := env.load(heap, entity, rules[from]);
      if found.Some? then Duplicate(from, found.value) else FindDuplicate(env, heap, rules, entity, from + 1)
  }

  /** How the checks end for one extraction result: imported (with the entity to store), dropped, or the whole import aborted. */
  datatype Verdict = Accept(record: ExtractionResult) | Reject | Abort(existing: EntityId, record: ExtractionResult)

  /** A verdict and the failures recorded on the way. */
  datatype Screened = Screened(verdict: Verdict, failures: seq<EntityImportError>)

  /** `createEntityImportErrorResult`. */
  function ErrorFor(record: ExtractionResult, message: string, errorType: ErrorType): (r: EntityImportError)
    ensures r.entity == Some(record.entity) && r.importedDataItem == Some(record.importedDataItem)
    ensures r.errorMessage == Some(message) && r.errorType == Some(errorType)
  {
    EntityImportError(Some(record.importedDataItem), Some(message), Some(errorType), Some(record.entity))
  }

  const SkipMessage := "Entity not imported since it is already existing and Unique policy is set to SKIP"
  const PredicateRejectedMessage := "Entity not imported due to pre-commit predicate"

  /** The policy of the uniqueness rule a duplicate was found under. */
  function PolicyOf(rules: seq<UniqueEntityConfiguration>, d: Duplicate): Option<DuplicateEntityPolicy>
    requires d.Duplicate? ==> d.index < |rules|
  {
    if d.Duplicate? then rules[d.index].policy else None
  }

  /**
   * `checkEntityDuplicates`: with no duplicate the result goes on; under
   * UPDATE it goes on with the stored instance in place of the extracted
   * one; ABORT ends the import; SKIP, or no policy, drops it with one
   * UNIQUE_VIOLATION failure.
   */
  function DuplicateScreen(env: Collaborators, heap: map<EntityId, Entity>, config: ImportConfiguration,
                           record: ExtractionResult): (r: Screened)
    ensures var d := FindDuplicate(env, heap, config.uniqueEntityConfigurations, record.entity, 0);
      var policy := PolicyOf(config.uniqueEntityConfigurations, d);
      && (d.NoDuplicate? ==> r == Screened(Accept(record), []))
      && (d.Duplicate? && policy == Some(UPDATE) ==> r == Screened(Accept(record.(entity := d.existing)), []))
      && (d.Duplicate? && policy == Some(ABORT) ==> r == Screened(Abort(d.existing, record), []))
      && (d.Duplicate? && policy != Some(UPDATE) && policy != Some(ABORT) ==>
            r == Screened(Reject, [ErrorFor(record, SkipMessage, UNIQUE_VIOLATION)]))
  {
    var d := FindDuplicate(env, heap, config.uniqueEntityConfigurations, record.entity, 0);
    if d.NoDuplicate? then Screened(Accept(record), [])
    else
      var policy := config.uniqueEntityConfigurations[d.index].policy;
      if policy == Some(UPDATE) then Screened(Accept(record.(entity := d.existing)), [])
      else if policy == Some(ABORT) then Screened(Abort(d.existing, record), [])
      else Screened(Reject, [ErrorFor(record, SkipMessage, UNIQUE_VIOLATION)])
  }

  /**
   * `checkPreImportPredicate` with `executePreCommitPredicateIfNecessary`: no
   * predicate lets the result through; a rejection records one VALIDATION
   * failure; a predicate that throws records a PRE_COMMIT_PREDICATE failure
   * and then the VALIDATION one as well.
   */
  function PredicateScreen(env: Collaborators, config: ImportConfiguration, record: ExtractionResult): (r: Screened)
    ensures r.verdict.Accept? <==>
      config.preImportPredicate.None? || env.preImportPredicate(config.preImportPredicate.value, record) == Answered(true)
    ensures r.verdict.Accept? ==> r == Screened(Accept(record), [])
    ensures !r.verdict.Accept? ==> (r.verdict == Reject && |r.failures| > 0 &&
      r.failures[|r.failures| - 1] == ErrorFor(record, PredicateRejectedMessage, VALIDATION))
    ensures (config.preImportPredicate.Some? &&
             env.preImportPredicate(config.preImportPredicate.value, record).PredicateThrew?) ==>
      r.failures == [ErrorFor(record, "Pre-commit predicate execution failed with: " +
                       env.preImportPredicate(config.preImportPredicate.value, record).message, PRE_COMMIT_PREDICATE),
                     ErrorFor(record, PredicateRejectedMessage, VALIDATION)]
  {
    if config.preImportPredicate.None? then Screened(Accept(record), [])
    else
      var rejected := ErrorFor(record, PredicateRejectedMessage, VALIDATION);
      match env.preImportPredicate(config.preImportPredicate.value, record)
      case Answered(accept) => if accept then Screened(Accept(record), []) else Screened(Reject, [rejected])
      case PredicateThrew(message) =>
        Screened(Reject, [ErrorFor(record, "Pre-commit predicate execution failed with: " + message, PRE_COMMIT_PREDICATE), rejected])
  }

  /** `checkExtractedEntity`: the duplicate check, and the predicate only for a result that passed it. */
  function Screen(env: Collaborators, heap: map<EntityId, Entity>, config: ImportConfiguration,
                  record: ExtractionResult): (r: Screened)
  {
    var d := DuplicateScreen(env, heap, config, record);
    if d.verdict.Accept? then PredicateScreen(env, config, d.verdict.record) else d
  }

  /** Without uniqueness rules and without a predicate every extraction result is imported as it is. */
  lemma NoChecksAcceptAll(env: Collaborators, heap: map<EntityId, Entity>, config: ImportConfiguration,
                          record: ExtractionResult)
    requires |config.uniqueEntityConfigurations| == 0 && config.preImportPredicate.None?
    ensures Screen(env, heap, config, record) == Screened(Accept(record), [])
  {
  }

  /** A result imported keeps its data item, passed the predicate, and is the extracted entity or the duplicate it updates. */
  lemma AcceptedPassedChecks(env: Collaborators, heap: map<EntityId, Entity>, config: ImportConfiguration,
                             record: ExtractionResult)
    requires Screen(env, heap, config, record).verdict.Accept?
    ensures var r := Screen(env, heap, config, record);
      var rec := r.verdict.record;
      var d := FindDuplicate(env, heap, config.uniqueEntityConfigurations, record.entity, 0);
      && r.failures == []
      && rec.importedDataItem == record.importedDataItem
      && (config.preImportPredicate.None? || env.preImportPredicate(config.preImportPredicate.value, rec) == Answered(true))
      && (d.NoDuplicate? ==> rec == record)
      && (d.Duplicate? ==> rec.entity == d.existing && PolicyOf(config.uniqueEntityConfigurations, d) == Some(UPDATE))
  {
  }

  /** A duplicate under SKIP (or no policy) records exactly one UNIQUE_VIOLATION and never consults the predicate. */
  lemma SkipRecordsOneViolation(env: Collaborators, heap: map<EntityId, Entity>, config: ImportConfiguration,
                                record: ExtractionResult, otherPredicate: (nat, ExtractionResult) -> PredicateOutcome)
    requires var d := FindDuplicate(env, heap, config.uniqueEntityConfigurations, record.entity, 0);
      d.Duplicate? && PolicyOf(config.uniqueEntityConfigurations, d) != Some(UPDATE) &&
      PolicyOf(config.uniqueEntityConfigurations, d) != Some(ABORT)
    ensures Screen(env, heap, config, record) == Screened(Reject, [ErrorFor(record, SkipMessage, UNIQUE_VIOLATION)])
    ensures Screen(env.(preImportPredicate := otherPredicate), heap, config, record) == Screen(env, heap, config, record)
  {
    var env2 := env.(preImportPredicate := otherPredicate);
    assert FindDuplicate(env2, heap, config.uniqueEntityConfigurations, record.entity, 0) ==
           FindDuplicate(env, heap, config.uniqueEntityConfigurations, record.entity, 0) by {
      SameLoadSameDuplicate(env, env2, heap, config.uniqueEntityConfigurations, record.entity, 0);
    }
  }

  /** The duplicate search depends on `load` alone. */
  lemma {:induction false} SameLoadSameDuplicate(env1: Collaborators, env2: Collaborators, heap: map<EntityId, Entity>,
                                                 rules: seq<UniqueEntityConfiguration>, entity: EntityId, from: nat)
    requires env1.load == env2.load
    ensures FindDuplicate(env1, heap, rules, entity, from) == FindDuplicate(env2, heap, rules, entity, from)
    decreases |rules| - from
  {
    if from < |rules| {
      SameLoadSameDuplicate(env1, env2, heap, rules, entity, from + 1);
    }
  }

  /** Every check ends with at most two failures, and with none exactly when the result is imported or the import aborts. */
  lemma ScreenFailures(env: Collaborators, heap: map<EntityId, Entity>, config: ImportConfiguration,
                       record: ExtractionResult)
    ensures var r := Screen(env, heap, config, record);
      |r.failures| <= 2 && (r.failures == [] <==> !r.verdict.Reject?)
  {
  }

  // ---------------------------------------------------------------------
  // Storing entities and the record it leaves
  // ---------------------------------------------------------------------

  /** `tryToImportEntities`: every entity stored in order; the first failure ends it. */
  function StoreAll(env: Collaborators, entities: seq<EntityId>): (r: Result<seq<StoredId>, StoreOutcome>)
    decreases |entities|
    ensures r.Success? <==> forall k :: 0 <= k < |entities| ==> env.store(entities[k]).Stored?
    ensures r.Success? ==> (|r.value| == |entities| &&
      forall k :: 0 <= k < |entities| ==> env.store(entities[k]) == Stored(r.value[k]))
    ensures r.Failure? ==> !r.error.Stored? && exists k :: 0 <= k < |entities| && env.store(entities[k]) == r.error
  {
    if |entities| == 0 then Success([])
    else
      match env.store(entities[0])
      case Stored(id) =>
        var rest := StoreAll(env, entities[1..]);
        assert forall k :: 1 <= k < |entities| ==> entities[k] == entities[1..][k - 1];
        if rest.Success? then Success([id] + rest.value) else rest
      case _ => Failure(env.store(entities[0]))
  }

  /** The record after a step, whether the whole import aborts, and the message of an exception that escapes the executor. */
  datatype StepOutcome = StepOutcome(state: ResultState, aborted: Option<AbortInfo>, escaped: Option<string>)

  /** What an ABORT duplicate reports: the stored instance and the extraction result. */
  datatype AbortInfo = AbortInfo(existing: EntityId, record: ExtractionResult)

  /** `resetImportResult`: failed, nothing processed, with a message; everything else stays. */
  function ResetState(s: ResultState, message: string): (r: ResultState)
  {
    s.(success := false, numOfProcessedEntities := 0, errorMessage := Some(message))
  }

  const TransactionAbort := "\nTransaction abort - no entity is stored in the database."

  /**
   * `importEntities` (one transaction): all stored, their ids replace the
   * list; a validation or persistence failure resets the result; any other
   * failure escapes to the caller.
   */
  function ImportEntitiesOutcome(env: Collaborators, entities: seq<EntityId>, s: ResultState): (r: StepOutcome)
    ensures r.aborted.None?
    ensures StoreAll(env, entities).Success? ==>
      r.state == s.(importedEntityIds := StoreAll(env, entities).value) && r.escaped.None?
    ensures StoreAll(env, entities).Failure? && !StoreAll(env, entities).error.OtherFailure? ==>
      (!r.state.success && r.state.numOfProcessedEntities == 0 && r.state.errorMessage.Some? &&
       r.state.importedEntityIds == s.importedEntityIds && r.escaped.None?)
    ensures r.escaped.Some? <==> StoreAll(env, entities).Failure? && StoreAll(env, entities).error.OtherFailure?
    ensures r.escaped.Some? ==> r.state == s
    ensures r.state.failedEntities == s.failedEntities && r.state.configurationCode == s.configurationCode
  {
    match StoreAll(env, entities)
    case Success(ids) => StepOutcome(s.(importedEntityIds := ids), None, None)
    case Failure(ValidationFailed(message, _)) => StepOutcome(ResetState(s, message + TransactionAbort), None, None)
    case Failure(PersistenceFailed(message)) =>
      StepOutcome(ResetState(s, "Error while executing import: " + message + TransactionAbort), None, None)
    case Failure(OtherFailure(message)) => StepOutcome(s, None, Some(message))
    case Failure(Stored(_)) => StepOutcome(s, None, None)
  }

  /**
   * `importEntity` (one transaction per entity): a stored id is added if the
   * list does not hold it yet; a validation or persistence failure marks the
   * import failed and records the entity; any other failure escapes.
   */
  function ImportEntityOutcome(env: Collaborators, record: ExtractionResult, s: ResultState): (r: StepOutcome)
    ensures r.aborted.None?
    ensures env.store(record.entity).Stored? ==>
      r.state.importedEntityIds == (if env.store(record.entity).id in s.importedEntityIds then s.importedEntityIds
                                    else s.importedEntityIds + [env.store(record.entity).id])
    ensures env.store(record.entity).ValidationFailed? ==>
      r.state == s.(success := false, failedEntities := s.failedEntities +
                     [ErrorFor(record, env.store(record.entity).description, VALIDATION)])
    ensures env.store(record.entity).PersistenceFailed? ==>
      r.state == s.(success := false, failedEntities := s.failedEntities +
                     [ErrorFor(record, "Error while importing entity: " + env.store(record.entity).message, PERSISTENCE)])
    ensures r.escaped.Some? <==> env.store(record.entity).OtherFailure?
  {
    match env.store(record.entity)
    case Stored(id) =>
      var ids := if id in s.importedEntityIds then s.importedEntityIds else s.importedEntityIds + [id];
      StepOutcome(s.(importedEntityIds := ids), None, None)
    case ValidationFailed(_, description) =>
      StepOutcome(s.(success := false, failedEntities := s.failedEntities + [ErrorFor(record, description, VALIDATION)]), None, None)
    case PersistenceFailed(message) =>
      StepOutcome(s.(success := false, failedEntities := s.failedEntities +
                     [ErrorFor(record, "Error while importing entity: " + message, PERSISTENCE)]), None, None)
    case OtherFailure(message) => StepOutcome(s, None, Some(message))
  }

  /** The failure recorded for a data item the extractor could not turn into an entity. */
  function ExtractionError(item: ImportedDataItem, message: string): (r: EntityImportError)
    ensures r.importedDataItem == Some(item) && r.entity.None?
    ensures r.errorType == Some(DATA_BINDING) && r.errorMessage == Some("Error during entity extraction: " + message)
  {
    EntityImportError(Some(item), Some("Error during entity extraction: " + message), Some(DATA_BINDING), None)
  }

  /** One pass of the loop of `importInMultipleTransactions`, on the heap as it is before the item. */
  function ItemStep(env: Collaborators, heap: map<EntityId, Entity>, config: ImportConfiguration,
                    item: ImportedDataItem, s: ResultState): (r: StepOutcome)
  {
    match env.extractOne(config, item)
    case Failure(message) =>
      StepOutcome(s.(success := false, failedEntities := s.failedEntities + [ExtractionError(item, message)]), None, None)
    case Success(None) => StepOutcome(s, None, None)
    case Success(Some(entity)) =>
      var record := EntityExtractor.ExtractionResult(entity, item);
      var screened := Screen(env, heap, config, record);
      var s1 := s.(failedEntities := s.failedEntities + screened.failures);
      match screened.verdict
      case Accept(accepted) => ImportEntityOutcome(env, accepted, s1)
      case Reject => StepOutcome(s1, None, None)
      case Abort(existing, aborted) => StepOutcome(s1, Some(AbortInfo(existing, aborted)), None)
  }

  /**
   * The heap `checkEntityDuplicates` leaves: a stored duplicate found under
   * UPDATE re-populated from the result's data item by every configuration
   * mapping in order; under any other outcome the heap as it was.
   */
  ghost function CheckedHeap(env: Collaborators, heap: map<EntityId, Entity>, config: ImportConfiguration,
                             record: ExtractionResult): (r: map<EntityId, Entity>)
    ensures r.Keys == heap.Keys
  {
    var d := FindDuplicate(env, heap, config.uniqueEntityConfigurations, record.entity, 0);
    if d.Duplicate? && PolicyOf(config.uniqueEntityConfigurations, d) == Some(UPDATE) && d.existing in heap then
      ReferencePopulation.AppliedHeap(env.providers, env.metamodel, d.existing, heap[d.existing].metaClass, config,
                                      config.propertyMappings, record.importedDataItem.AsObject(), None, heap,
                                      |config.propertyMappings|)
    else heap
  }

  /** The heap one pass of the loop of `importInMultipleTransactions` leaves: only the duplicate check changes it. */
  ghost function ItemHeap(env: Collaborators, heap: map<EntityId, Entity>, config: ImportConfiguration,
                          item: ImportedDataItem): (r: map<EntityId, Entity>)
    ensures r.Keys == heap.Keys
  {
    match env.extractOne(config, item)
    case Success(Some(entity)) => CheckedHeap(env, heap, config, EntityExtractor.ExtractionResult(entity, item))
    case _ => heap
  }

  /** A failure of a kind that marks the whole import failed when recorded. */
  predicate MarksFailure(e: EntityImportError)
  {
    e.errorType == Some(DATA_BINDING) || e.errorType == Some(PERSISTENCE)
  }

  /**
   * One item leaves the id list free of repeats, only appends ids and failures,
   * never sets `success` back to true, sets it to false only while recording a
   * failure, marks the import failed whenever it records an extraction or
   * persistence failure, and leaves the count, the code and the message alone.
   */
  lemma ItemStepKeeps(env: Collaborators, heap: map<EntityId, Entity>, config: ImportConfiguration,
                      item: ImportedDataItem, s: ResultState)
    ensures var r := ItemStep(env, heap, config, item, s);
      && (Population.Distinct(s.importedEntityIds) ==> Population.Distinct(r.state.importedEntityIds))
      && s.importedEntityIds <= r.state.importedEntityIds
      && s.failedEntities <= r.state.failedEntities
      && (r.state.success ==> s.success)
      && (s.success && !r.state.success ==> |r.state.failedEntities| > |s.failedEntities|)
      && (forall k :: |s.failedEntities| <= k < |r.state.failedEntities| && MarksFailure(r.state.failedEntities[k]) ==>
            !r.state.success)
      && r.state.numOfProcessedEntities == s.numOfProcessedEntities
      && r.state.configurationCode == s.configurationCode
      && r.state.errorMessage == s.errorMessage
      && (r.aborted.Some? ==> r.escaped.None? && r.state.success == s.success)
  {
    var r := ItemStep(env, heap, config, item, s);
    match env.extractOne(config, item)
    case Failure(message) =>
    case Success(None) =>
    case Success(Some(entity)) =>
      var record := EntityExtractor.ExtractionResult(entity, item);
      var screened := Screen(env, heap, config, record);
      ScreenFailures(env, heap, config, record);
      var s1 := s.(failedEntities := s.failedEntities + screened.failures);
      assert s.failedEntities <= s1.failedEntities;
      assert forall k :: |s.failedEntities| <= k < |s1.failedEntities| ==>
        s1.failedEntities[k] == screened.failures[k - |s.failedEntities|];
      ScreenFailureKinds(env, heap, config, record);
      if screened.verdict.Accept? {
        var accepted := screened.verdict.record;
        match env.store(accepted.entity)
        case Stored(id) =>
          if id !in s.importedEntityIds && Population.Distinct(s.importedEntityIds) {
            AppendKeepsDistinct(s.importedEntityIds, id);
          }
        case ValidationFailed(_, _) =>
        case PersistenceFailed(_) =>
        case OtherFailure(_) =>
      }
  }

  /** The checks themselves never record an extraction or persistence failure. */
  lemma ScreenFailureKinds(env: Collaborators, heap: map<EntityId, Entity>, config: ImportConfiguration,
                           record: ExtractionResult)
    ensures var r := Screen(env, heap, config, record);
      forall k :: 0 <= k < |r.failures| ==> !MarksFailure(r.failures[k])
  {
  }

  lemma AppendKeepsDistinct(ids: seq<StoredId>, id: StoredId)
    requires Population.Distinct(ids) && id !in ids
    ensures Population.Distinct(ids + [id])
  {
  }

  /** The entities of a list of extraction results. */
  function EntitiesOf(results: seq<ExtractionResult>): (r: seq<EntityId>)
    ensures |r| == |results| && forall k :: 0 <= k < |results| ==> r[k] == results[k].entity
  {
    seq(|results|, k requires 0 <= k < |results| => results[k].entity)
  }

  /** The message of an ABORT duplicate in a single transaction. */
  function OneTransactionAbortMessage(env: Collaborators, a: AbortInfo): string
  {
    "Unique violation occurred with Unique Policy ABORT for entity: '" + env.describeEntity(a.record.entity) +
    "' with data item: '" + env.describeItem(a.record.importedDataItem) +
    "'. Found entity: '" + env.describeEntity(a.existing) + "'"
  }

  /** The message of an ABORT duplicate with a transaction per entity. */
  function MultipleTransactionsAbortMessage(env: Collaborators, a: AbortInfo): string
  {
    "Unique violation occurred with Unique Policy ABORT for entity: " + env.describeEntity(a.record.entity) +
    " with data row: " + env.describeItem(a.record.importedDataItem) +
    ". Found entity: " + env.describeEntity(a.existing)
  }

  const ConfigurationNotSetMessage := "Import configuration is not set to execute data import"
}
