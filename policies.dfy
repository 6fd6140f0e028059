/** The enumerations that steer an import. */
module Policies {
  import opened Wrappers

  /** What to do with an imported entity equal to one already stored (model/configuration/DuplicateEntityPolicy.java). */
  datatype DuplicateEntityPolicy = SKIP | UPDATE | ABORT
  {
    /** Each constant's id is its name. */
    function Id(): string
    {
      match this
      case SKIP => "SKIP"
      case UPDATE => "UPDATE"
      case ABORT => "ABORT"
    }
  }

  /** `DuplicateEntityPolicy.values()`, in declaration order. */
  const DuplicatePolicies: seq<DuplicateEntityPolicy> := [SKIP, UPDATE, ABORT]

  /** The search of `fromId`: the first constant in `candidates` whose id equals `id`. */
  function FindPolicyById(candidates: seq<DuplicateEntityPolicy>, id: string): (r: Option<DuplicateEntityPolicy>)
    ensures r.Some? ==> r.value in candidates && r.value.Id() == id
    ensures r.None? ==> forall p :: p in candidates ==> p.Id() != id
  {
    if |candidates| == 0 then None
    else if candidates[0].Id() == id then Some(candidates[0])
    else FindPolicyById(candidates[1..], id)
  }

  /** `fromId`: the constant with the given id, or null when no constant has it. */
  function DuplicatePolicyFromId(id: string): (r: Option<DuplicateEntityPolicy>)
    ensures r.Some? <==> id in {"SKIP", "UPDATE", "ABORT"}
    ensures r.Some? ==> r.value.Id() == id
  {
    assert SKIP in DuplicatePolicies && UPDATE in DuplicatePolicies && ABORT in DuplicatePolicies;
    FindPolicyById(DuplicatePolicies, id)
  }

  /** Decoding an encoded policy gives the policy back. */
  lemma DuplicatePolicyIdRoundTrip(p: DuplicateEntityPolicy)
    ensures DuplicatePolicyFromId(p.Id()) == Some(p)
  {
    var r := DuplicatePolicyFromId(p.Id());
    assert r.Some? && r.value.Id() == p.Id();
  }

  /** The two transaction strategies (ImportTransactionStrategy is not part of this model; its ids are its names). */
  datatype ImportTransactionStrategy = SINGLE_TRANSACTION | MULTIPLE_TRANSACTIONS
  {
    function Id(): string
    {
      match this
      case SINGLE_TRANSACTION => "SINGLE_TRANSACTION"
      case MULTIPLE_TRANSACTIONS => "MULTIPLE_TRANSACTIONS"
    }
  }

  function StrategyFromId(id: string): (r: Option<ImportTransactionStrategy>)
    ensures r.Some? ==> r.value.Id() == id
    ensures r.None? ==> id != "SINGLE_TRANSACTION" && id != "MULTIPLE_TRANSACTIONS"
  {
    if id == "SINGLE_TRANSACTION" then Some(SINGLE_TRANSACTION)
    else if id == "MULTIPLE_TRANSACTIONS" then Some(MULTIPLE_TRANSACTIONS)
    else None
  }

  /**
   * How a reference of the configuration-mapping classes is resolved when no
   * entity is found. ReferenceImportPolicy is not part of this model: the code
   * modelled here only tells CREATE apart from the rest and names
   * IGNORE_IF_MISSING as the default; any other constant is `OtherImportPolicy`.
   */
  datatype ReferenceImportPolicy = CREATE | IGNORE_IF_MISSING | OtherImportPolicy(name: string)

  /** What an association binder does when no entity is loaded (`ReferenceEntityPolicy`: CREATE or IGNORE). */
  datatype ReferenceEntityPolicy = CreateEntity | IgnoreEntity

  /**
   * One uniqueness rule: entities agreeing on `entityPropertyNames` are duplicates,
   * handled by `policy` (a missing policy acts as SKIP in DataImportExecutor).
   */
  datatype UniqueEntityConfiguration = UniqueEntityConfiguration(
    entityPropertyNames: seq<string>,
    policy: Option<DuplicateEntityPolicy>)
}
