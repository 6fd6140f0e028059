/**
 * The outcome of one import (result/ImportResult.java) and the record of
 * one entity that was not imported (model/result/EntityImportError.java).
 */
module ImportResults {
  import opened Wrappers
  import opened RawData

  /** Why an entity was not imported. */
  datatype ErrorType = DATA_BINDING | UNIQUE_VIOLATION | VALIDATION | PRE_COMMIT_PREDICATE | PERSISTENCE | GENERAL

  /**
   * EntityImportError: the data item, the message, the kind and the entity
   * instance concerned; each starts out null (`None`).
   */
  datatype EntityImportError = EntityImportError(
    importedDataItem: Option<ImportedDataItem>,
    errorMessage: Option<string>,
    errorType: Option<ErrorType>,
    entity: Option<EntityId>)

  /** The identifier of a stored entity, as `EntityValues.getId` gives it. */
  type StoredId = nat

  /** The fields of an ImportResult at one moment; an unset string is `None`. */
  datatype ResultState = ResultState(
    success: bool,
    configurationCode: Option<string>,
    numOfProcessedEntities: int,
    importedEntityIds: seq<StoredId>,
    failedEntities: seq<EntityImportError>,
    errorMessage: Option<string>)

  /** The state of a fresh ImportResult: successful, nothing processed, nothing recorded. */
  function InitialState(): (r: ResultState)
    ensures r.success && r.numOfProcessedEntities == 0
    ensures r.importedEntityIds == [] && r.failedEntities == []
    ensures r.configurationCode.None? && r.errorMessage.None?
  {
    ResultState(true, None, 0, [], [], None)
  }

  class ImportResult {
    var success: bool
    var configurationCode: Option<string>
    var numOfProcessedEntities: int
    var importedEntityIds: seq<StoredId>
    var failedEntities: seq<EntityImportError>
    var errorMessage: Option<string>

    function State(): ResultState
      reads this
    {
      ResultState(success, configurationCode, numOfProcessedEntities, importedEntityIds, failedEntities, errorMessage)
    }

    constructor ()
      ensures State() == InitialState()
    {
      success := true;
      configurationCode := None;
      numOfProcessedEntities := 0;
      importedEntityIds := [];
      failedEntities := [];
      errorMessage := None;
    }

    method SetSuccess(value: bool)
      modifies this
      ensures State() == old(State()).(success := value)
    {
      success := value;
    }

    method SetImportedEntityIds(ids: seq<StoredId>)
      modifies this
      ensures State() == old(State()).(importedEntityIds := ids)
    {
      importedEntityIds := ids;
    }

    method SetFailedEntities(errors: seq<EntityImportError>)
      modifies this
      ensures State() == old(State()).(failedEntities := errors)
    {
      failedEntities := errors;
    }

    method SetNumOfProcessedEntities(n: int)
      modifies this
      ensures State() == old(State()).(numOfProcessedEntities := n)
    {
      numOfProcessedEntities := n;
    }

    /** Appends an id; the list is not checked for one already there. */
    method AddImportedEntityId(id: StoredId)
      modifies this
      ensures State() == old(State()).(importedEntityIds := old(importedEntityIds) + [id])
    {
      importedEntityIds := importedEntityIds + [id];
    }

    method AddFailedEntity(error: EntityImportError)
      modifies this
      ensures State() == old(State()).(failedEntities := old(failedEntities) + [error])
    {
      failedEntities := failedEntities + [error];
    }

    method SetErrorMessage(message: Option<string>)
      modifies this
      ensures State() == old(State()).(errorMessage := message)
    {
      errorMessage := message;
    }

    method SetConfigurationCode(code: Option<string>)
      modifies this
      ensures State() == old(State()).(configurationCode := code)
    {
      configurationCode := code;
    }
  }
}
