/**
 * DataImportExecutor: checks the configuration, then imports the extracted
 * entities either in one transaction or one transaction per data item,
 * recording the outcome in its ImportResult. Each method is proved against
 * the step functions of ExecutorSpec.
 */
module Executor {
  import opened Wrappers
  import opened RawData
  import opened Policies
  import opened Entities
  import opened Configuration
  import opened ImportResults
  import opened ExecutorSpec
  import EntityExtractor
  import ReferencePopulation
  import Population

  /**
   * The heap after the duplicate check is `CheckedHeap`: under UPDATE the
   * stored duplicate re-populated from the result's data item, changed only
   * on the mapped properties and carrying each simple mapping's value;
   * untouched otherwise.
   */
  ghost predicate DuplicateHandled(env: Collaborators, before: map<EntityId, Entity>, after: map<EntityId, Entity>,
                                   config: ImportConfiguration, record: ExtractionResult)
  {
    var d := FindDuplicate(env, before, config.uniqueEntityConfigurations, record.entity, 0);
    after == CheckedHeap(env, before, config, record) &&
    if d.Duplicate? && PolicyOf(config.uniqueEntityConfigurations, d) == Some(UPDATE) then
      d.existing in before && ReferencePopulation.OnlyMappedChanged(before, after, d.existing, config.propertyMappings) &&
      ReferencePopulation.CarriesMappings(env.providers, before[d.existing].metaClass, config, config.propertyMappings,
                                          record.importedDataItem.AsObject(), after, d.existing)
    else after == before
  }

  /** No uniqueness rules and no pre-import predicate. */
  predicate NoChecks(config: ImportConfiguration)
  {
    |config.uniqueEntityConfigurations| == 0 && config.preImportPredicate.None?
  }

  /**
   * The checks run over the first `n` extraction results, each on the heap
   * the previous check left (`heaps[k]` before the `k`-th), none of them
   * aborting.
   */
  ghost predicate ScreenedPrefix(env: Collaborators, config: ImportConfiguration, results: seq<ExtractionResult>,
                                 n: nat, heaps: seq<map<EntityId, Entity>>)
  {
    n <= |results| && n < |heaps| &&
    forall k :: 0 <= k < n ==>
      !Screen(env, heaps[k], config, results[k]).verdict.Abort? &&
      DuplicateHandled(env, heaps[k], heaps[k + 1], config, results[k])
  }

  /** The entities the checks let through among the first `n` results, in order (an UPDATE duplicate in place of its result). */
  ghost function AcceptedOf(env: Collaborators, config: ImportConfiguration, results: seq<ExtractionResult>,
                            heaps: seq<map<EntityId, Entity>>, n: nat): (r: seq<EntityId>)
    requires n <= |results| && n < |heaps|
    ensures |r| <= n
  {
    if n == 0 then []
    else
      var v := Screen(env, heaps[n - 1], config, results[n - 1]).verdict;
      AcceptedOf(env, config, results, heaps, n - 1) + (if v.Accept? then [v.record.entity] else [])
  }

  /** The failures the checks record over the first `n` results, in order. */
  ghost function FailuresOf(env: Collaborators, config: ImportConfiguration, results: seq<ExtractionResult>,
                            heaps: seq<map<EntityId, Entity>>, n: nat): seq<EntityImportError>
    requires n <= |results| && n < |heaps|
  {
    if n == 0 then []
    else FailuresOf(env, config, results, heaps, n - 1) + Screen(env, heaps[n - 1], config, results[n - 1]).failures
  }

  /** `tryToImportEntities` fails with the outcome of the first entity that is not stored. */
  lemma {:induction false} StoreAllFirstFailure(env: Collaborators, entities: seq<EntityId>, i: nat)
    requires i < |entities| && !env.store(entities[i]).Stored?
    requires forall k :: 0 <= k < i ==> env.store(entities[k]).Stored?
    ensures StoreAll(env, entities) == Failure(env.store(entities[i]))
  {
    if i > 0 {
      assert forall k :: 0 <= k < i - 1 ==> entities[1..][k] == entities[k + 1];
      StoreAllFirstFailure(env, entities[1..], i - 1);
    }
  }

  class DataImportExecutor {
    const importResult: ImportResult
    const importConfiguration: Option<ImportConfiguration>
    const importedData: ImportedData

    constructor (config: Option<ImportConfiguration>, data: ImportedData)
      ensures importConfiguration == config && importedData == data
      ensures fresh(importResult) && importResult.State() == InitialState()
    {
      importConfiguration := config;
      importedData := data;
      importResult := new ImportResult();
    }

    /** `resetImportResult`. */
    method ResetImportResult(message: string)
      modifies importResult
      ensures importResult.State() == ResetState(old(importResult.State()), message)
    {
      importResult.SetSuccess(false);
      importResult.SetNumOfProcessedEntities(0);
      importResult.SetErrorMessage(Some(message));
    }

    /** `checkEntityDuplicates`: the uniqueness rules in order; the first that finds a stored duplicate decides. */
    method CheckEntityDuplicates(env: Collaborators, heap: EntityHeap, record: ExtractionResult) returns (verdict: Verdict)
      requires importConfiguration.Some? && heap.Valid() && LoadsFromHeap(env)
      modifies importResult, heap`entities
      ensures var screened := DuplicateScreen(env, old(heap.entities), importConfiguration.value, record);
        verdict == screened.verdict &&
        importResult.State() == old(importResult.State()).(failedEntities := old(importResult.failedEntities) + screened.failures)
      ensures heap.Valid() && heap.entities.Keys == old(heap.entities).Keys
      ensures DuplicateHandled(env, old(heap.entities), heap.entities, importConfiguration.value, record)
    {
      var config := importConfiguration.value;
      var rules := config.uniqueEntityConfigurations;
      ghost var before := heap.entities;
      var i := 0;
      while i < |rules|
        invariant 0 <= i <= |rules|
        invariant heap.entities == before
        invariant FindDuplicate(env, before, rules, record.entity, 0) == FindDuplicate(env, before, rules, record.entity, i)
      {
        var existing := env.load(heap.entities, record.entity, rules[i]);
        if existing.Some? {
          if rules[i].policy == Some(UPDATE) {
            var info, states := ReferencePopulation.PopulateProperties(env.providers, env.metamodel, heap, existing.value, config,
                                                               record.importedDataItem, None);
            ReferencePopulation.AppliedInOrderHeap(env.providers, env.metamodel, existing.value, before[existing.value].metaClass,
                                                   config, config.propertyMappings, record.importedDataItem.AsObject(), None,
                                                   |config.propertyMappings|, states);
            verdict := Accept(record.(entity := info.entity));
          } else if rules[i].policy == Some(ABORT) {
            verdict := Abort(existing.value, record);
          } else {
            importResult.AddFailedEntity(ErrorFor(record, SkipMessage, UNIQUE_VIOLATION));
            verdict := Reject;
          }
          return;
        }
        i := i + 1;
      }
      verdict := Accept(record);
    }

    /** `executePreCommitPredicateIfNecessary`: a predicate that throws is recorded and counts as a rejection. */
    method ExecutePreCommitPredicateIfNecessary(env: Collaborators, record: ExtractionResult) returns (pass: bool)
      requires importConfiguration.Some?
      modifies importResult
      ensures var p := importConfiguration.value.preImportPredicate;
        pass == (p.None? || env.preImportPredicate(p.value, record) == Answered(true))
      ensures var p := importConfiguration.value.preImportPredicate;
        importResult.State() == old(importResult.State()).(failedEntities := old(importResult.failedEntities) +
          if p.Some? && env.preImportPredicate(p.value, record).PredicateThrew? then
            [ErrorFor(record, "Pre-commit predicate execution failed with: " + env.preImportPredicate(p.value, record).message,
                      PRE_COMMIT_PREDICATE)]
          else [])
    {
      var p := importConfiguration.value.preImportPredicate;
      if p.None? {
        return true;
      }
      match env.preImportPredicate(p.value, record)
      case Answered(accept) =>
        pass := accept;
      case PredicateThrew(message) =>
        importResult.AddFailedEntity(ErrorFor(record, "Pre-commit predicate execution failed with: " + message, PRE_COMMIT_PREDICATE));
        pass := false;
    }

    /** `checkPreImportPredicate`. */
    method CheckPreImportPredicate(env: Collaborators, record: ExtractionResult) returns (pass: bool)
      requires importConfiguration.Some?
      modifies importResult
      ensures var screened := PredicateScreen(env, importConfiguration.value, record);
        pass == screened.verdict.Accept? &&
        importResult.State() == old(importResult.State()).(failedEntities := old(importResult.failedEntities) + screened.failures)
    {
      pass := ExecutePreCommitPredicateIfNecessary(env, record);
      if !pass {
        importResult.AddFailedEntity(ErrorFor(record, PredicateRejectedMessage, VALIDATION));
      }
    }

    /** `checkExtractedEntity`: the duplicate check, then the predicate for a result that passed it. */
    method CheckExtractedEntity(env: Collaborators, heap: EntityHeap, record: ExtractionResult) returns (verdict: Verdict)
      requires importConfiguration.Some? && heap.Valid() && LoadsFromHeap(env)
      modifies importResult, heap`entities
      ensures var screened := Screen(env, old(heap.entities), importConfiguration.value, record);
        verdict == screened.verdict &&
        importResult.State() == old(importResult.State()).(failedEntities := old(importResult.failedEntities) + screened.failures)
      ensures heap.Valid() && heap.entities.Keys == old(heap.entities).Keys
      ensures DuplicateHandled(env, old(heap.entities), heap.entities, importConfiguration.value, record)
    {
      verdict := CheckEntityDuplicates(env, heap, record);
      if verdict.Accept? {
        var pass := CheckPreImportPredicate(env, verdict.record);
        if !pass {
          verdict := Reject;
        }
      }
    }

    /** `tryToImportEntities`: the entities stored one by one; the first failure ends it. */
    method TryToImportEntities(env: Collaborators, entities: seq<EntityId>) returns (r: Result<seq<StoredId>, StoreOutcome>)
      ensures r == StoreAll(env, entities)
    {
      var ids: seq<StoredId> := [];
      var i := 0;
      while i < |entities|
        invariant 0 <= i <= |entities| && |ids| == i
        invariant forall k :: 0 <= k < i ==> env.store(entities[k]) == Stored(ids[k])
      {
        var outcome := env.store(entities[i]);
        if !outcome.Stored? {
          StoreAllFirstFailure(env, entities, i);
          return Failure(outcome);
        }
        ids := ids + [outcome.id];
        i := i + 1;
      }
      var all := StoreAll(env, entities);
      assert all.Success? && |all.value| == |ids|;
      assert forall k :: 0 <= k < |ids| ==> all.value[k] == ids[k];
      assert all.value == ids;
      r := Success(ids);
    }

    /** `importEntities`: everything in one transaction. */
    method ImportEntities(env: Collaborators, entities: seq<EntityId>) returns (escaped: Option<string>)
      modifies importResult
      ensures var o := ImportEntitiesOutcome(env, entities, old(importResult.State()));
        importResult.State() == o.state && escaped == o.escaped
    {
      var stored := TryToImportEntities(env, entities);
      escaped := None;
      match stored
      case Success(ids) => importResult.SetImportedEntityIds(ids);
      case Failure(ValidationFailed(message, _)) => ResetImportResult(message + TransactionAbort);
      case Failure(PersistenceFailed(message)) => ResetImportResult("Error while executing import: " + message + TransactionAbort);
      case Failure(OtherFailure(message)) => escaped := Some(message);
      case Failure(Stored(_)) =>
    }

    /** `importEntity`: one entity in its own transaction. */
    method ImportEntity(env: Collaborators, record: ExtractionResult) returns (escaped: Option<string>)
      modifies importResult
      ensures var o := ImportEntityOutcome(env, record, old(importResult.State()));
        importResult.State() == o.state && escaped == o.escaped
    {
      var stored := TryToImportEntities(env, [record.entity]);
      escaped := None;
      match stored
      case Success(ids) =>
        var id := ids[0];
        if id !in importResult.importedEntityIds {
          importResult.AddImportedEntityId(id);
        }
      case Failure(ValidationFailed(_, description)) =>
        importResult.SetSuccess(false);
        importResult.AddFailedEntity(ErrorFor(record, description, VALIDATION));
      case Failure(PersistenceFailed(message)) =>
        importResult.SetSuccess(false);
        importResult.AddFailedEntity(ErrorFor(record, "Error while importing entity: " + message, PERSISTENCE));
      case Failure(OtherFailure(message)) => escaped := Some(message);
      case Failure(Stored(_)) =>
    }

    /**
     * The filter of `importInOneTransaction`: the entities of the results
     * that pass the checks, in order, or the ABORT duplicate that stops it.
     * `heaps[k]` is the heap the `k`-th check ran on; the last is the heap
     * left at the end, and the checks ran on `|heaps| - 1` results.
     */
    method ScreenAll(env: Collaborators, heap: EntityHeap, results: seq<ExtractionResult>)
      returns (entities: seq<EntityId>, aborted: Option<AbortInfo>, ghost heaps: seq<map<EntityId, Entity>>)
      requires importConfiguration.Some? && heap.Valid() && LoadsFromHeap(env)
      modifies importResult, heap`entities
      ensures heap.Valid() && heap.entities.Keys == old(heap.entities).Keys
      ensures importResult.State() == old(importResult.State()).(failedEntities := importResult.failedEntities)
      ensures old(importResult.failedEntities) <= importResult.failedEntities
      ensures |entities| <= |results|
      ensures aborted.Some? ==> aborted.value.record in results
      ensures NoChecks(importConfiguration.value) ==>
        entities == EntitiesOf(results) && aborted.None? &&
        importResult.State() == old(importResult.State()) && heap.entities == old(heap.entities)
      ensures |heaps| >= 1 && heaps[0] == old(heap.entities)
      ensures ScreenOutcome(env, importConfiguration.value, results, heaps, heap.entities, entities, aborted,
                            importResult.failedEntities, old(importResult.failedEntities))
    {
      var config := importConfiguration.value;
      entities := [];
      aborted := None;
      heaps := [heap.entities];
      var i := 0;
      while i < |results|
        invariant 0 <= i <= |results|
        invariant heap.Valid() && heap.entities.Keys == old(heap.entities).Keys
        invariant importResult.State() == old(importResult.State()).(failedEntities := importResult.failedEntities)
        invariant Screening(env, config, results, i, heaps, heap.entities, entities, importResult.failedEntities,
                            old(importResult.failedEntities))
        invariant heaps[0] == old(heap.entities) && aborted.None?
      {
        entities, aborted, heaps := ScreenNext(env, heap, results, i, entities, heaps, old(importResult.failedEntities));
        if aborted.Some? {
          ScreenEnd(env, config, results, i, heaps, heap.entities, entities, aborted, importResult.failedEntities,
                    old(importResult.failedEntities));
          return;
        }
        i := i + 1;
      }
      ScreenEnd(env, config, results, i, heaps, heap.entities, entities, aborted, importResult.failedEntities,
                old(importResult.failedEntities));
    }

    /** One pass of the filter: the checks on the `i`-th result, on the heap the trace ends with. */
    method ScreenNext(env: Collaborators, heap: EntityHeap, results: seq<ExtractionResult>, i: nat,
                      entities: seq<EntityId>, ghost heaps: seq<map<EntityId, Entity>>, ghost start: seq<EntityImportError>)
      returns (next: seq<EntityId>, aborted: Option<AbortInfo>, ghost nextHeaps: seq<map<EntityId, Entity>>)
      requires importConfiguration.Some? && heap.Valid() && LoadsFromHeap(env) && i < |results|
      requires Screening(env, importConfiguration.value, results, i, heaps, heap.entities, entities,
                         importResult.failedEntities, start)
      modifies importResult, heap`entities
      ensures heap.Valid() && heap.entities.Keys == old(heap.entities).Keys
      ensures importResult.State() == old(importResult.State()).(failedEntities := importResult.failedEntities)
      ensures |nextHeaps| > 0 && nextHeaps[0] == heaps[0]
      ensures aborted.None? ==>
        nextHeaps == heaps + [heap.entities] &&
        Screening(env, importConfiguration.value, results, i + 1, nextHeaps, heap.entities, next,
                  importResult.failedEntities, start)
      ensures aborted.Some? ==>
        next == entities && nextHeaps == heaps && heap.entities == old(heap.entities) &&
        importResult.failedEntities == old(importResult.failedEntities) && aborted.value.record == results[i] &&
        Screen(env, heaps[i], importConfiguration.value, results[i]).verdict == Abort(aborted.value.existing, aborted.value.record)
      ensures NoChecks(importConfiguration.value) ==> aborted.None?
    {
      var config := importConfiguration.value;
      ghost var before := heap.entities;
      ghost var failedBefore := importResult.failedEntities;
      if NoChecks(config) {
        NoChecksAcceptAll(env, before, config, results[i]);
      }
      var verdict := CheckExtractedEntity(env, heap, results[i]);
      next, nextHeaps := entities, heaps;
      if verdict.Abort? {
        AbortLeavesHeap(env, config, before, heap.entities, results[i]);
        return next, Some(AbortInfo(verdict.existing, verdict.record)), nextHeaps;
      }
      aborted := None;
      if verdict.Accept? {
        next := entities + [verdict.record.entity];
      }
      nextHeaps := heaps + [heap.entities];
      ScreenedSnoc(env, config, results, i, heaps, heap.entities, entities, failedBefore, start, next,
                   importResult.failedEntities);
    }

    /**
     * `importInOneTransaction`. After a successful extraction the checks run
     * on `|heaps| - 1` results (the heap before each in `heaps`); an ABORT
     * among them resets the record with the abort message; otherwise the
     * accepted entities are stored together, and an exception escaping the
     * store resets the record with its message.
     */
    method ImportInOneTransaction(env: Collaborators, heap: EntityHeap) returns (ghost heaps: seq<map<EntityId, Entity>>)
      requires importConfiguration.Some? && heap.Valid() && LoadsFromHeap(env)
      modifies importResult, heap`entities
      ensures heap.Valid()
      ensures var extracted := env.extractAll(importConfiguration.value, importedData.items);
        extracted.Failure? ==>
          importResult.State() == ResetState(old(importResult.State()).(success := true), "Entities extraction failed: " + extracted.error)
      ensures var extracted := env.extractAll(importConfiguration.value, importedData.items);
        importResult.success ==>
          (extracted.Success? && importResult.numOfProcessedEntities == |extracted.value| &&
           importResult.errorMessage == old(importResult.errorMessage) &&
           |importResult.importedEntityIds| <= |extracted.value|)
      ensures !importResult.success ==>
        (importResult.numOfProcessedEntities == 0 && importResult.errorMessage.Some? &&
         importResult.importedEntityIds == old(importResult.importedEntityIds))
      ensures old(importResult.failedEntities) <= importResult.failedEntities
      ensures importResult.configurationCode == old(importResult.configurationCode)
      ensures var extracted := env.extractAll(importConfiguration.value, importedData.items);
        (extracted.Success? && NoChecks(importConfiguration.value) &&
         StoreAll(env, EntitiesOf(extracted.value)).Success?) ==>
          (importResult.success && importResult.importedEntityIds == StoreAll(env, EntitiesOf(extracted.value)).value &&
           importResult.failedEntities == old(importResult.failedEntities))
      ensures |heaps| >= 1 && heaps[0] == old(heap.entities) && heap.entities == heaps[|heaps| - 1]
      ensures var extracted := env.extractAll(importConfiguration.value, importedData.items);
        extracted.Success? ==>
          OneTransactionRun(env, importConfiguration.value, extracted.value, heaps, old(importResult.State()), importResult.State())
      ensures var extracted := env.extractAll(importConfiguration.value, importedData.items);
        extracted.Failure? ==> heaps == [old(heap.entities)]
    {
      var config := importConfiguration.value;
      heaps := [heap.entities];
      importResult.SetSuccess(true);
      var extracted := env.extractAll(config, importedData.items);
      if extracted.Failure? {
        ResetImportResult("Entities extraction failed: " + extracted.error);
        return;
      }
      importResult.SetNumOfProcessedEntities(|extracted.value|);
      heaps := ImportExtracted(env, heap, extracted.value, old(importResult.State()));
      OneTransactionFacts(env, config, extracted.value, heaps, old(importResult.State()), importResult.State());
    }

    /** `importInOneTransaction` once the results are extracted and counted: the filter, then the store, then the resets. */
    method ImportExtracted(env: Collaborators, heap: EntityHeap, results: seq<ExtractionResult>, ghost s0: ResultState)
      returns (ghost heaps: seq<map<EntityId, Entity>>)
      requires importConfiguration.Some? && heap.Valid() && LoadsFromHeap(env)
      requires importResult.State() == s0.(success := true, numOfProcessedEntities := |results|)
      modifies importResult, heap`entities
      ensures heap.Valid() && |heaps| >= 1 && heaps[0] == old(heap.entities) && heap.entities == heaps[|heaps| - 1]
      ensures OneTransactionRun(env, importConfiguration.value, results, heaps, s0, importResult.State())
    {
      var entities, aborted;
      entities, aborted, heaps := ScreenAll(env, heap, results);
      if aborted.Some? {
        ResetImportResult(OneTransactionAbortMessage(env, aborted.value));
      } else {
        var escaped := ImportEntities(env, entities);
        if escaped.Some? {
          ResetImportResult("Error while importing the data: " + escaped.value);
        }
      }
    }

    /** One pass of the loop of `importInMultipleTransactions`. */
    method ImportItem(env: Collaborators, heap: EntityHeap, item: ImportedDataItem)
      returns (aborted: Option<AbortInfo>, escaped: Option<string>)
      requires importConfiguration.Some? && heap.Valid() && LoadsFromHeap(env)
      modifies importResult, heap`entities
      ensures var o := ItemStep(env, old(heap.entities), importConfiguration.value, item, old(importResult.State()));
        importResult.State() == o.state && aborted == o.aborted && escaped == o.escaped
      ensures heap.Valid() && heap.entities.Keys == old(heap.entities).Keys
      ensures heap.entities == ItemHeap(env, old(heap.entities), importConfiguration.value, item)
    {
      var config := importConfiguration.value;
      aborted := None;
      escaped := None;
      var extracted := env.extractOne(config, item);
      if extracted.Failure? {
        importResult.SetSuccess(false);
        importResult.AddFailedEntity(ExtractionError(item, extracted.error));
      } else if extracted.value.Some? {
        var record := EntityExtractor.ExtractionResult(extracted.value.value, item);
        var verdict := CheckExtractedEntity(env, heap, record);
        match verdict
        case Accept(accepted) => escaped := ImportEntity(env, accepted);
        case Reject =>
        case Abort(existing, r) => aborted := Some(AbortInfo(existing, r));
      }
    }

    /**
     * `importInMultipleTransactions`: every data item extracted, checked and
     * stored on its own; an ABORT duplicate ends the loop and marks the import
     * failed; an unexpected storing failure escapes. `heaps` and `states` are
     * the heap and the record before each item that ran to its end.
     */
    method ImportInMultipleTransactions(env: Collaborators, heap: EntityHeap)
      returns (escaped: Option<string>, ghost aborted: Option<AbortInfo>,
               ghost heaps: seq<map<EntityId, Entity>>, ghost states: seq<ResultState>)
      requires importConfiguration.Some? && heap.Valid() && LoadsFromHeap(env)
      modifies importResult, heap`entities
      ensures heap.Valid()
      ensures Population.Distinct(old(importResult.importedEntityIds)) ==> Population.Distinct(importResult.importedEntityIds)
      ensures old(importResult.importedEntityIds) <= importResult.importedEntityIds
      ensures old(importResult.failedEntities) <= importResult.failedEntities
      ensures importResult.configurationCode == old(importResult.configurationCode)
      ensures aborted.Some? ==>
        (escaped.None? && !importResult.success &&
         importResult.errorMessage == Some(MultipleTransactionsAbortMessage(env, aborted.value)) &&
         importResult.numOfProcessedEntities == old(importResult.numOfProcessedEntities))
      ensures escaped.Some? ==>
        (aborted.None? && importResult.errorMessage == old(importResult.errorMessage) &&
         importResult.numOfProcessedEntities == old(importResult.numOfProcessedEntities))
      ensures aborted.None? && escaped.None? ==>
        (importResult.numOfProcessedEntities == |importedData.items| &&
         importResult.errorMessage == old(importResult.errorMessage))
      ensures forall k :: (|old(importResult.failedEntities)| <= k < |importResult.failedEntities| &&
                           MarksFailure(importResult.failedEntities[k])) ==> !importResult.success
      ensures aborted.None? && importResult.failedEntities == old(importResult.failedEntities) ==> importResult.success
      ensures |heaps| >= 1 && heaps[0] == old(heap.entities)
      ensures MultipleTransactionsRun(env, importConfiguration.value, importedData.items, heaps, states,
                                      old(importResult.State()), importResult.State(), heap.entities, aborted, escaped)
    {
      importResult.SetSuccess(true);
      var stopped;
      escaped, stopped, heaps, states := RunItems(env, heap);
      aborted := stopped;
      if stopped.Some? {
        importResult.SetSuccess(false);
        importResult.SetErrorMessage(Some(MultipleTransactionsAbortMessage(env, stopped.value)));
      } else if escaped.None? {
        importResult.SetNumOfProcessedEntities(|importedData.items|);
      }
      MultipleTransactionsFacts(env, importConfiguration.value, importedData.items, heaps, states,
                                old(importResult.State()), importResult.State(), heap.entities, aborted, escaped);
    }

    /**
     * The loop of `importInMultipleTransactions`: the items in order until one
     * aborts or escapes.
     */
    method RunItems(env: Collaborators, heap: EntityHeap)
      returns (escaped: Option<string>, aborted: Option<AbortInfo>,
               ghost heaps: seq<map<EntityId, Entity>>, ghost states: seq<ResultState>)
      requires importConfiguration.Some? && heap.Valid() && LoadsFromHeap(env)
      modifies importResult, heap`entities
      ensures heap.Valid()
      ensures |heaps| >= 1 && heaps[0] == old(heap.entities) && |states| >= 1 && states[0] == old(importResult.State())
      ensures ItemsStopped(env, importConfiguration.value, importedData.items, heaps, states, importResult.State(),
                           heap.entities, aborted, escaped)
    {
      var config := importConfiguration.value;
      var items := importedData.items;
      escaped := None;
      aborted := None;
      heaps, states := [heap.entities], [importResult.State()];
      var i := 0;
      while i < |items|
        invariant 0 <= i <= |items| && heap.Valid()
        invariant ItemsRun(env, config, items, i, heaps, states) && heaps[i] == heap.entities && states[i] == importResult.State()
        invariant heaps[0] == old(heap.entities) && states[0] == old(importResult.State())
        invariant aborted.None? && escaped.None?
      {
        aborted, escaped := ImportItem(env, heap, items[i]);
        if aborted.Some? || escaped.Some? {
          return;
        }
        ItemsRunSnoc(env, config, items, i, heaps, states, heap.entities, importResult.State());
        heaps, states := heaps + [heap.entities], states + [importResult.State()];
        i := i + 1;
      }
    }

    /**
     * `importData`: the configuration is checked first (a thrown
     * IllegalStateException is `Some(message)`, with nothing recorded); then
     * the configuration code is recorded and SINGLE_TRANSACTION alone selects
     * the one-transaction import, any other strategy the import item by item.
     * `heaps`, `states` and `aborted` are the ghost trace of the import run.
     */
    method ImportData(env: Collaborators, heap: EntityHeap)
      returns (thrown: Option<string>, ghost heaps: seq<map<EntityId, Entity>>, ghost states: seq<ResultState>,
               ghost aborted: Option<AbortInfo>)
      requires heap.Valid() && LoadsFromHeap(env)
      modifies importResult, heap`entities
      ensures heap.Valid()
      ensures importConfiguration.None? ==>
        thrown == Some(ConfigurationNotSetMessage) &&
        importResult.State() == old(importResult.State()) && heap.entities == old(heap.entities)
      ensures importConfiguration.Some? && ValidatePropertyMappings(importConfiguration.value.propertyMappings).Some? ==>
        thrown == ValidatePropertyMappings(importConfiguration.value.propertyMappings) &&
        importResult.State() == old(importResult.State()) && heap.entities == old(heap.entities)
      ensures importConfiguration.Some? && ValidatePropertyMappings(importConfiguration.value.propertyMappings).None? ==>
        importResult.configurationCode == Some(importConfiguration.value.code) &&
        old(importResult.failedEntities) <= importResult.failedEntities
      ensures (importConfiguration.Some? && ValidatePropertyMappings(importConfiguration.value.propertyMappings).None? &&
               importConfiguration.value.transactionStrategy == Some(SINGLE_TRANSACTION)) ==>
        thrown.None? && (!importResult.success ==> importResult.numOfProcessedEntities == 0)
      ensures (importConfiguration.Some? && ValidatePropertyMappings(importConfiguration.value.propertyMappings).None? &&
               importConfiguration.value.transactionStrategy != Some(SINGLE_TRANSACTION)) ==>
        (thrown.None? && importResult.success ==> importResult.numOfProcessedEntities == |importedData.items|)
      ensures importConfiguration.Some? && ValidatePropertyMappings(importConfiguration.value.propertyMappings).None? ==>
        ImportRun(env, importConfiguration.value, importedData.items, heaps, states,
                  old(importResult.State()).(configurationCode := Some(importConfiguration.value.code)),
                  importResult.State(), old(heap.entities), heap.entities, aborted, thrown)
    {
      heaps, states, aborted := [heap.entities], [], None;
      if importConfiguration.None? {
        return Some(ConfigurationNotSetMessage), heaps, states, aborted;
      }
      var config := importConfiguration.value;
      var invalid := ValidatePropertyMappings(config.propertyMappings);
      if invalid.Some? {
        return invalid, heaps, states, aborted;
      }
      importResult.SetConfigurationCode(Some(config.code));
      ghost var s0 := importResult.State();
      assert s0 == old(importResult.State()).(configurationCode := Some(config.code));
      thrown := None;
      if config.transactionStrategy == Some(SINGLE_TRANSACTION) {
        heaps := ImportInOneTransaction(env, heap);
        assert ImportRun(env, config, importedData.items, heaps, states, s0, importResult.State(), old(heap.entities),
                         heap.entities, aborted, thrown);
      } else {
        thrown, aborted, heaps, states := ImportInMultipleTransactions(env, heap);
        assert ImportRun(env, config, importedData.items, heaps, states, s0, importResult.State(), old(heap.entities),
                         heap.entities, aborted, thrown);
      }
    }
  }

  /**
   * `importData` once the configuration is validated and its code recorded
   * in `s0`, ending in record `s` and heap `h` from heap `h0`: under
   * SINGLE_TRANSACTION nothing escapes and a failed extraction resets the
   * record with its error, a successful one runs the one-transaction import;
   * under any other strategy the import runs item by item.
   */
  ghost predicate ImportRun(env: Collaborators, config: ImportConfiguration, items: seq<ImportedDataItem>,
                            heaps: seq<map<EntityId, Entity>>, states: seq<ResultState>, s0: ResultState, s: ResultState,
                            h0: map<EntityId, Entity>, h: map<EntityId, Entity>, aborted: Option<AbortInfo>,
                            thrown: Option<string>)
  {
    |heaps| >= 1 && heaps[0] == h0 &&
    if config.transactionStrategy == Some(SINGLE_TRANSACTION) then
      var extracted := env.extractAll(config, items);
      thrown.None? && h == heaps[|heaps| - 1] &&
      (extracted.Failure? ==>
         heaps == [h0] && s == ResetState(s0.(success := true), "Entities extraction failed: " + extracted.error)) &&
      (extracted.Success? ==> OneTransactionRun(env, config, extracted.value, heaps, s0, s))
    else
      MultipleTransactionsRun(env, config, items, heaps, states, s0, s, h, aborted, thrown)
  }

  /** The screening loop after `n` results: the trace, the entities let through and the failures recorded so far. */
  ghost predicate Screening(env: Collaborators, config: ImportConfiguration, results: seq<ExtractionResult>, n: nat,
                            heaps: seq<map<EntityId, Entity>>, h: map<EntityId, Entity>, entities: seq<EntityId>,
                            failed: seq<EntityImportError>, start: seq<EntityImportError>)
  {
    |heaps| == n + 1 && heaps[n] == h && ScreenedPrefix(env, config, results, n, heaps) &&
    entities == AcceptedOf(env, config, results, heaps, n) && failed == start + FailuresOf(env, config, results, heaps, n)
  }

  /** A check that aborts has found its duplicate under ABORT, and so left the heap alone. */
  lemma AbortLeavesHeap(env: Collaborators, config: ImportConfiguration, before: map<EntityId, Entity>,
                        after: map<EntityId, Entity>, record: ExtractionResult)
    requires Screen(env, before, config, record).verdict.Abort? && DuplicateHandled(env, before, after, config, record)
    ensures after == before && Screen(env, before, config, record).verdict.record == record
  {
  }

  /** Without checks the trace lets every result through unchanged, records nothing and leaves the heap alone. */
  lemma {:induction false} NoChecksTrace(env: Collaborators, config: ImportConfiguration, results: seq<ExtractionResult>,
                                         n: nat, heaps: seq<map<EntityId, Entity>>)
    requires NoChecks(config) && ScreenedPrefix(env, config, results, n, heaps)
    ensures AcceptedOf(env, config, results, heaps, n) == EntitiesOf(results[..n])
    ensures FailuresOf(env, config, results, heaps, n) == [] && heaps[n] == heaps[0]
  {
    if n > 0 {
      NoChecksTrace(env, config, results, n - 1, heaps);
      NoChecksAcceptAll(env, heaps[n - 1], config, results[n - 1]);
      assert EntitiesOf(results[..n]) == EntitiesOf(results[..n - 1]) + [results[n - 1].entity];
    }
  }

  /**
   * How the filter ends: the checks ran, each on the heap the previous one
   * left, on the first `|heaps| - 1` results; `entities` are those they let
   * through and `failed` extends `start` by what they recorded; the filter
   * stopped early exactly when the last check aborted.
   */
  ghost predicate ScreenOutcome(env: Collaborators, config: ImportConfiguration, results: seq<ExtractionResult>,
                                heaps: seq<map<EntityId, Entity>>, h: map<EntityId, Entity>, entities: seq<EntityId>,
                                aborted: Option<AbortInfo>, failed: seq<EntityImportError>, start: seq<EntityImportError>)
  {
    var n := |heaps| - 1;
    |heaps| >= 1 && heaps[n] == h && ScreenedPrefix(env, config, results, n, heaps) &&
    entities == AcceptedOf(env, config, results, heaps, n) && failed == start + FailuresOf(env, config, results, heaps, n) &&
    (aborted.None? <==> n == |results|) &&
    (aborted.Some? ==> Screen(env, heaps[n], config, results[n]).verdict == Abort(aborted.value.existing, aborted.value.record))
  }

  /** The end of the filter, after `n` results that did not abort and either all of them or an aborting `n`-th. */
  lemma ScreenEnd(env: Collaborators, config: ImportConfiguration, results: seq<ExtractionResult>, n: nat,
                  heaps: seq<map<EntityId, Entity>>, h: map<EntityId, Entity>, entities: seq<EntityId>,
                  aborted: Option<AbortInfo>, failed: seq<EntityImportError>, start: seq<EntityImportError>)
    requires Screening(env, config, results, n, heaps, h, entities, failed, start)
    requires aborted.None? ==> n == |results|
    requires aborted.Some? ==>
      n < |results| && aborted.value.record == results[n] &&
      Screen(env, heaps[n], config, results[n]).verdict == Abort(aborted.value.existing, aborted.value.record)
    requires NoChecks(config) ==> aborted.None?
    ensures ScreenOutcome(env, config, results, heaps, h, entities, aborted, failed, start)
    ensures start <= failed && |entities| <= |results|
    ensures aborted.Some? ==> aborted.value.record in results
    ensures NoChecks(config) ==> entities == EntitiesOf(results) && failed == start && h == heaps[0]
  {
    if NoChecks(config) {
      NoChecksTrace(env, config, results, n, heaps);
      assert results[..n] == results;
    }
  }

  /**
   * `importInOneTransaction` after a successful extraction of `results`,
   * from record `s0` to record `s`: the checks ran on the first `|heaps| - 1`
   * results; an ABORT among them resets the record with the abort message,
   * otherwise the entities they let through are stored together and an
   * exception escaping the store resets the record with its message.
   */
  ghost predicate OneTransactionRun(env: Collaborators, config: ImportConfiguration, results: seq<ExtractionResult>,
                                    heaps: seq<map<EntityId, Entity>>, s0: ResultState, s: ResultState)
  {
    var n := |heaps| - 1;
    |heaps| >= 1 && ScreenedPrefix(env, config, results, n, heaps) &&
    var s1 := s0.(success := true, numOfProcessedEntities := |results|,
                  failedEntities := s0.failedEntities + FailuresOf(env, config, results, heaps, n));
    (n < |results| ==>
       var v := Screen(env, heaps[n], config, results[n]).verdict;
       v.Abort? && s == ResetState(s1, OneTransactionAbortMessage(env, AbortInfo(v.existing, v.record)))) &&
    (n == |results| ==>
       var o := ImportEntitiesOutcome(env, AcceptedOf(env, config, results, heaps, n), s1);
       s == if o.escaped.Some? then ResetState(o.state, "Error while importing the data: " + o.escaped.value) else o.state)
  }

  /**
   * A one-transaction run that succeeds counts every result, keeps the
   * message and stores at most one id per result; one that fails counts
   * nothing, has a message and stores no id; failures are only appended;
   * without checks, a store that succeeds is the run's outcome.
   */
  lemma OneTransactionFacts(env: Collaborators, config: ImportConfiguration, results: seq<ExtractionResult>,
                            heaps: seq<map<EntityId, Entity>>, s0: ResultState, s: ResultState)
    requires OneTransactionRun(env, config, results, heaps, s0, s)
    ensures s.success ==>
      s.numOfProcessedEntities == |results| && s.errorMessage == s0.errorMessage && |s.importedEntityIds| <= |results|
    ensures !s.success ==> s.numOfProcessedEntities == 0 && s.errorMessage.Some? && s.importedEntityIds == s0.importedEntityIds
    ensures s0.failedEntities <= s.failedEntities && s.configurationCode == s0.configurationCode
    ensures NoChecks(config) && StoreAll(env, EntitiesOf(results)).Success? ==>
      s.success && s.importedEntityIds == StoreAll(env, EntitiesOf(results)).value && s.failedEntities == s0.failedEntities
  {
    var n := |heaps| - 1;
    var s1 := s0.(success := true, numOfProcessedEntities := |results|,
                  failedEntities := s0.failedEntities + FailuresOf(env, config, results, heaps, n));
    if n == |results| {
      StoreFacts(env, AcceptedOf(env, config, results, heaps, n), s0, s1, s);
    }
    if NoChecks(config) && StoreAll(env, EntitiesOf(results)).Success? {
      NoChecksStored(env, config, results, heaps, s0, s);
    }
  }

  /**
   * The store at the end of a screening that did not abort: a success keeps
   * the count and the message and stores one id per accepted entity; a
   * failure resets the record; the ids are only replaced on success.
   */
  lemma StoreFacts(env: Collaborators, accepted: seq<EntityId>, s0: ResultState, s1: ResultState, s: ResultState)
    requires s1 == s0.(success := true, numOfProcessedEntities := s1.numOfProcessedEntities, failedEntities := s1.failedEntities)
    requires var o := ImportEntitiesOutcome(env, accepted, s1);
      s == if o.escaped.Some? then ResetState(o.state, "Error while importing the data: " + o.escaped.value) else o.state
    ensures s.success ==>
      s.numOfProcessedEntities == s1.numOfProcessedEntities && s.errorMessage == s0.errorMessage &&
      |s.importedEntityIds| == |accepted|
    ensures !s.success ==> s.numOfProcessedEntities == 0 && s.errorMessage.Some? && s.importedEntityIds == s0.importedEntityIds
    ensures s.failedEntities == s1.failedEntities && s.configurationCode == s0.configurationCode
  {
  }

  /** Without checks, a store that succeeds is the outcome of the one-transaction run. */
  lemma NoChecksStored(env: Collaborators, config: ImportConfiguration, results: seq<ExtractionResult>,
                       heaps: seq<map<EntityId, Entity>>, s0: ResultState, s: ResultState)
    requires OneTransactionRun(env, config, results, heaps, s0, s)
    requires NoChecks(config) && StoreAll(env, EntitiesOf(results)).Success?
    ensures s.success && s.importedEntityIds == StoreAll(env, EntitiesOf(results)).value && s.failedEntities == s0.failedEntities
  {
    var n := |heaps| - 1;
    NoChecksTrace(env, config, results, n, heaps);
    if n < |results| {
      NoChecksAcceptAll(env, heaps[n], config, results[n]);
    } else {
      assert results[..n] == results;
    }
  }

  /** One more check that did not abort extends the screening trace. */
  lemma ScreenedSnoc(env: Collaborators, config: ImportConfiguration, results: seq<ExtractionResult>, n: nat,
                     heaps: seq<map<EntityId, Entity>>, after: map<EntityId, Entity>, entities: seq<EntityId>,
                     failed: seq<EntityImportError>, start: seq<EntityImportError>,
                     entities': seq<EntityId>, failed': seq<EntityImportError>)
    requires ScreenedPrefix(env, config, results, n, heaps) && n < |results| && |heaps| == n + 1
    requires !Screen(env, heaps[n], config, results[n]).verdict.Abort?
    requires DuplicateHandled(env, heaps[n], after, config, results[n])
    requires entities == AcceptedOf(env, config, results, heaps, n) && failed == start + FailuresOf(env, config, results, heaps, n)
    requires var v := Screen(env, heaps[n], config, results[n]).verdict;
      entities' == entities + (if v.Accept? then [v.record.entity] else [])
    requires failed' == failed + Screen(env, heaps[n], config, results[n]).failures
    ensures Screening(env, config, results, n + 1, heaps + [after], after, entities', failed', start)
  {
    var next := heaps + [after];
    ScreenedPrefixSnoc(env, config, results, n, heaps, after);
    SamePrefixTrace(env, config, results, heaps, next, n);
    assert next[n] == heaps[n] && next[n + 1] == after;
    var r := Screen(env, heaps[n], config, results[n]);
    assert AcceptedOf(env, config, results, next, n + 1) ==
           AcceptedOf(env, config, results, next, n) + (if r.verdict.Accept? then [r.verdict.record.entity] else []);
    assert FailuresOf(env, config, results, next, n + 1) == FailuresOf(env, config, results, next, n) + r.failures;
    assert start + (FailuresOf(env, config, results, heaps, n) + r.failures) == failed + r.failures;
  }

  /** A check that did not abort, after a screened prefix, gives a screened prefix one longer. */
  lemma ScreenedPrefixSnoc(env: Collaborators, config: ImportConfiguration, results: seq<ExtractionResult>, n: nat,
                           heaps: seq<map<EntityId, Entity>>, after: map<EntityId, Entity>)
    requires ScreenedPrefix(env, config, results, n, heaps) && n < |results| && |heaps| == n + 1
    requires !Screen(env, heaps[n], config, results[n]).verdict.Abort?
    requires DuplicateHandled(env, heaps[n], after, config, results[n])
    ensures ScreenedPrefix(env, config, results, n + 1, heaps + [after])
  {
    var next := heaps + [after];
    forall k | 0 <= k < n + 1
      ensures !Screen(env, next[k], config, results[k]).verdict.Abort? &&
              DuplicateHandled(env, next[k], next[k + 1], config, results[k])
    {
      assert next[k] == heaps[k];
    }
  }

  /** The accepted entities and the failures of a prefix depend only on the heaps of that prefix. */
  lemma {:induction false} SamePrefixTrace(env: Collaborators, config: ImportConfiguration, results: seq<ExtractionResult>,
                                           heaps: seq<map<EntityId, Entity>>, longer: seq<map<EntityId, Entity>>, n: nat)
    requires n <= |results| && n < |heaps| && |heaps| <= |longer| && heaps == longer[..|heaps|]
    ensures AcceptedOf(env, config, results, heaps, n) == AcceptedOf(env, config, results, longer, n)
    ensures FailuresOf(env, config, results, heaps, n) == FailuresOf(env, config, results, longer, n)
  {
    if n > 0 {
      SamePrefixTrace(env, config, results, heaps, longer, n - 1);
      assert heaps[n - 1] == longer[n - 1];
    }
  }

  /**
   * The loop of `importInMultipleTransactions` over the first `n` items, each
   * one `ItemStep` on the heap and the record the previous item left, none of
   * them aborting or escaping.
   */
  ghost predicate ItemsRun(env: Collaborators, config: ImportConfiguration, items: seq<ImportedDataItem>, n: nat,
                           heaps: seq<map<EntityId, Entity>>, states: seq<ResultState>)
  {
    n <= |items| && |heaps| == n + 1 && |states| == n + 1 &&
    forall k :: 0 <= k < n ==>
      heaps[k + 1].Keys == heaps[k].Keys && heaps[k + 1] == ItemHeap(env, heaps[k], config, items[k]) &&
      var o := ItemStep(env, heaps[k], config, items[k], states[k]);
      o.state == states[k + 1] && o.aborted.None? && o.escaped.None?
  }

  /**
   * The loop over the items, ending in record `s` and heap `h`: with no abort
   * and no escape every item ran; otherwise it stopped at the first item
   * whose step aborted or let an exception escape.
   */
  ghost predicate ItemsStopped(env: Collaborators, config: ImportConfiguration, items: seq<ImportedDataItem>,
                               heaps: seq<map<EntityId, Entity>>, states: seq<ResultState>, s: ResultState,
                               h: map<EntityId, Entity>, aborted: Option<AbortInfo>, escaped: Option<string>)
  {
    var n := |states| - 1;
    |states| >= 1 && ItemsRun(env, config, items, n, heaps, states) &&
    (aborted.None? && escaped.None? ==> n == |items| && s == states[n] && h == heaps[n]) &&
    (aborted.Some? || escaped.Some? ==>
       n < |items| &&
       var o := ItemStep(env, heaps[n], config, items[n], states[n]);
       o.aborted == aborted && o.escaped == escaped && s == o.state && h == ItemHeap(env, heaps[n], config, items[n]))
  }

  /**
   * `importInMultipleTransactions` from record `s0` to record `s`, ending in
   * heap `h`: the items ran in order from a record marked successful; with
   * no abort and no escape every item ran and the count is the number of
   * items; otherwise the loop stopped at the first item whose step aborted
   * (the import is then marked failed with the abort message) or let an
   * exception escape.
   */
  ghost predicate MultipleTransactionsRun(env: Collaborators, config: ImportConfiguration, items: seq<ImportedDataItem>,
                                          heaps: seq<map<EntityId, Entity>>, states: seq<ResultState>, s0: ResultState,
                                          s: ResultState, h: map<EntityId, Entity>, aborted: Option<AbortInfo>,
                                          escaped: Option<string>)
  {
    var n := |states| - 1;
    |states| >= 1 && states[0] == s0.(success := true) && ItemsRun(env, config, items, n, heaps, states) &&
    (aborted.None? && escaped.None? ==>
       n == |items| && s == states[n].(numOfProcessedEntities := |items|) && h == heaps[n]) &&
    (aborted.Some? || escaped.Some? ==>
       n < |items| &&
       var o := ItemStep(env, heaps[n], config, items[n], states[n]);
       o.aborted == aborted && o.escaped == escaped && h == ItemHeap(env, heaps[n], config, items[n]) &&
       s == if aborted.Some? then o.state.(success := false, errorMessage := Some(MultipleTransactionsAbortMessage(env, aborted.value)))
            else o.state)
  }

  /** One more item that neither aborted nor escaped extends the trace. */
  lemma ItemsRunSnoc(env: Collaborators, config: ImportConfiguration, items: seq<ImportedDataItem>, n: nat,
                     heaps: seq<map<EntityId, Entity>>, states: seq<ResultState>, h: map<EntityId, Entity>, s: ResultState)
    requires ItemsRun(env, config, items, n, heaps, states) && n < |items|
    requires var o := ItemStep(env, heaps[n], config, items[n], states[n]);
      h.Keys == heaps[n].Keys && h == ItemHeap(env, heaps[n], config, items[n]) &&
      o.state == s && o.aborted.None? && o.escaped.None?
    ensures ItemsRun(env, config, items, n + 1, heaps + [h], states + [s])
  {
    var hs, ss := heaps + [h], states + [s];
    forall k | 0 <= k < n + 1
      ensures hs[k + 1].Keys == hs[k].Keys && hs[k + 1] == ItemHeap(env, hs[k], config, items[k]) &&
        var o := ItemStep(env, hs[k], config, items[k], ss[k]);
        o.state == ss[k + 1] && o.aborted.None? && o.escaped.None?
    {
      assert hs[k] == heaps[k] && ss[k] == states[k];
    }
  }

  /**
   * Over a run of items the record only gains ids (never a repeat) and
   * failures, keeps its count, code and message, never turns successful, turns
   * failed only with a new failure, and is failed after any new extraction or
   * persistence failure.
   */
  lemma {:induction false} ItemsRunKeeps(env: Collaborators, config: ImportConfiguration, items: seq<ImportedDataItem>,
                                         n: nat, heaps: seq<map<EntityId, Entity>>, states: seq<ResultState>)
    requires ItemsRun(env, config, items, n, heaps, states)
    ensures var a, b := states[0], states[n];
      && (Population.Distinct(a.importedEntityIds) ==> Population.Distinct(b.importedEntityIds))
      && a.importedEntityIds <= b.importedEntityIds && a.failedEntities <= b.failedEntities
      && b.numOfProcessedEntities == a.numOfProcessedEntities && b.configurationCode == a.configurationCode
      && b.errorMessage == a.errorMessage
      && (b.success ==> a.success) && (a.success && !b.success ==> |b.failedEntities| > |a.failedEntities|)
      && (forall k :: |a.failedEntities| <= k < |b.failedEntities| && MarksFailure(b.failedEntities[k]) ==> !b.success)
  {
    if n > 0 {
      ItemsRunKeeps(env, config, items, n - 1, heaps[..n], states[..n]) by {
        assert ItemsRun(env, config, items, n - 1, heaps[..n], states[..n]) by {
          forall k | 0 <= k < n - 1
            ensures heaps[..n][k + 1].Keys == heaps[..n][k].Keys &&
              heaps[..n][k + 1] == ItemHeap(env, heaps[..n][k], config, items[k]) &&
              var o := ItemStep(env, heaps[..n][k], config, items[k], states[..n][k]);
              o.state == states[..n][k + 1] && o.aborted.None? && o.escaped.None?
          {
            assert heaps[..n][k] == heaps[k] && heaps[..n][k + 1] == heaps[k + 1];
            assert states[..n][k] == states[k] && states[..n][k + 1] == states[k + 1];
          }
        }
      }
      assert states[..n][0] == states[0] && states[..n][n - 1] == states[n - 1];
      ItemStepKeeps(env, heaps[n - 1], config, items[n - 1], states[n - 1]);
      StepsCompose(states[0], states[n - 1], states[n]);
    }
  }

  /** The properties of `ItemsRunKeeps` compose over two consecutive stretches. */
  lemma StepsCompose(a: ResultState, m: ResultState, b: ResultState)
    requires (Population.Distinct(a.importedEntityIds) ==> Population.Distinct(m.importedEntityIds))
    requires a.importedEntityIds <= m.importedEntityIds && a.failedEntities <= m.failedEntities
    requires (m.success ==> a.success) && (a.success && !m.success ==> |m.failedEntities| > |a.failedEntities|)
    requires forall k :: |a.failedEntities| <= k < |m.failedEntities| && MarksFailure(m.failedEntities[k]) ==> !m.success
    requires (Population.Distinct(m.importedEntityIds) ==> Population.Distinct(b.importedEntityIds))
    requires m.importedEntityIds <= b.importedEntityIds && m.failedEntities <= b.failedEntities
    requires (b.success ==> m.success) && (m.success && !b.success ==> |b.failedEntities| > |m.failedEntities|)
    requires forall k :: |m.failedEntities| <= k < |b.failedEntities| && MarksFailure(b.failedEntities[k]) ==> !b.success
    ensures (Population.Distinct(a.importedEntityIds) ==> Population.Distinct(b.importedEntityIds))
    ensures a.importedEntityIds <= b.importedEntityIds && a.failedEntities <= b.failedEntities
    ensures (b.success ==> a.success) && (a.success && !b.success ==> |b.failedEntities| > |a.failedEntities|)
    ensures forall k :: |a.failedEntities| <= k < |b.failedEntities| && MarksFailure(b.failedEntities[k]) ==> !b.success
  {
    PrefixesCompose(a.importedEntityIds, m.importedEntityIds, b.importedEntityIds);
    PrefixesCompose(a.failedEntities, m.failedEntities, b.failedEntities);
    forall k | |a.failedEntities| <= k < |b.failedEntities| && MarksFailure(b.failedEntities[k])
      ensures !b.success
    {
      if k < |m.failedEntities| {
        assert b.failedEntities[k] == m.failedEntities[k];
      }
    }
  }

  /**
   * A run of `importInMultipleTransactions` keeps the id list free of repeats,
   * only appends ids and failures, keeps the code, reports an abort with its
   * message and an escape without touching the message or the count, counts
   * every item when it finishes, is failed after any new extraction or
   * persistence failure, and is successful when it neither aborted nor
   * recorded a failure.
   */
  lemma MultipleTransactionsFacts(env: Collaborators, config: ImportConfiguration, items: seq<ImportedDataItem>,
                                  heaps: seq<map<EntityId, Entity>>, states: seq<ResultState>, s0: ResultState,
                                  s: ResultState, h: map<EntityId, Entity>, aborted: Option<AbortInfo>,
                                  escaped: Option<string>)
    requires MultipleTransactionsRun(env, config, items, heaps, states, s0, s, h, aborted, escaped)
    ensures Population.Distinct(s0.importedEntityIds) ==> Population.Distinct(s.importedEntityIds)
    ensures s0.importedEntityIds <= s.importedEntityIds && s0.failedEntities <= s.failedEntities
    ensures s.configurationCode == s0.configurationCode
    ensures aborted.Some? ==>
      escaped.None? && !s.success && s.errorMessage == Some(MultipleTransactionsAbortMessage(env, aborted.value)) &&
      s.numOfProcessedEntities == s0.numOfProcessedEntities
    ensures escaped.Some? ==>
      aborted.None? && s.errorMessage == s0.errorMessage && s.numOfProcessedEntities == s0.numOfProcessedEntities
    ensures aborted.None? && escaped.None? ==> s.numOfProcessedEntities == |items| && s.errorMessage == s0.errorMessage
    ensures forall k :: |s0.failedEntities| <= k < |s.failedEntities| && MarksFailure(s.failedEntities[k]) ==> !s.success
    ensures aborted.None? && s.failedEntities == s0.failedEntities ==> s.success
  {
    var n := |states| - 1;
    ItemsRunKeeps(env, config, items, n, heaps, states);
    if aborted.Some? || escaped.Some? {
      var o := ItemStep(env, heaps[n], config, items[n], states[n]);
      ItemStepKeeps(env, heaps[n], config, items[n], states[n]);
      StepsCompose(states[0], states[n], o.state);
      if aborted.Some? {
        PrefixesCompose(s0.failedEntities, states[n].failedEntities, o.state.failedEntities);
      }
    }
  }

  /** Prefixes compose. */
  lemma PrefixesCompose<T>(a: seq<T>, b: seq<T>, c: seq<T>)
    requires a <= b && b <= c
    ensures a <= c
  {
    assert c[..|a|] == b[..|a|];
  }
}
