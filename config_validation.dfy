/**
 * ImportConfigurationValidator (configuration/ImportConfigurationValidator.java):
 * every multi-field reference mapping, at any depth, whose property is
 * embedded must use the CREATE policy.
 */
module ConfigValidation {
  import opened Wrappers
  import opened Policies
  import opened Metadata
  import opened ConfigMapping
  import opened Configuration

  /** How the policy prints in a message; an unset one prints as "null". */
  function PolicyName(policy: Option<ReferenceImportPolicy>): string
  {
    match policy
    case None => "null"
    case Some(CREATE) => "CREATE"
    case Some(IGNORE_IF_MISSING) => "IGNORE_IF_MISSING"
    case Some(OtherImportPolicy(n)) => n
  }

  function EmbeddedPolicyMessage(m: PropertyMapping): string
    requires m.ReferenceMultiFieldPropertyMapping?
  {
    "Incorrect policy [" + PolicyName(m.referenceImportPolicy) + "] for embedded reference [" +
    m.entityPropertyName + "]. Only CREATE policy supported."
  }

  /** The rule on its own: a multi-field reference to an embedded property needs CREATE, and so does everything below it. */
  predicate MappingValid(mm: Metamodel, owner: string, m: PropertyMapping)
    decreases m
  {
    m.ReferenceMultiFieldPropertyMapping? ==>
      var p := mm(owner, m.entityPropertyName);
      (!p.embedded || m.referenceImportPolicy == Some(CREATE)) &&
      MappingsValid(mm, p.rangeClass, m.referencePropertyMappings)
  }

  predicate MappingsValid(mm: Metamodel, owner: string, ms: seq<PropertyMapping>)
    decreases ms
  {
    forall i :: 0 <= i < |ms| ==> MappingValid(mm, owner, ms[i])
  }

  /**
   * `validatePropertyMappings` / `validateMultiFieldMapping`: the mappings in
   * order, each multi-field one checked before its nested mappings; the first
   * violation ends the walk.
   */
  function ValidateMappings(mm: Metamodel, owner: string, ms: seq<PropertyMapping>): (r: Result<(), string>)
    decreases ms
  {
    if |ms| == 0 then Success(())
    else
      var first := ValidateMapping(mm, owner, ms[0]);
      if first.Failure? then first else ValidateMappings(mm, owner, ms[1..])
  }

  function ValidateMapping(mm: Metamodel, owner: string, m: PropertyMapping): (r: Result<(), string>)
    decreases m
  {
    if m.ReferenceMultiFieldPropertyMapping? then
      var p := mm(owner, m.entityPropertyName);
      if p.embedded && m.referenceImportPolicy != Some(CREATE) then Failure(EmbeddedPolicyMessage(m))
      else ValidateMappings(mm, p.rangeClass, m.referencePropertyMappings)
    else Success(())
  }

  /** `validate`: the configuration's mappings against its entity class. */
  function Validate(mm: Metamodel, c: ImportConfiguration): (r: Result<(), string>)
    ensures r.Success? <==> MappingsValid(mm, c.entityClass, c.propertyMappings)
  {
    ValidationMeansValid(mm, c.entityClass, c.propertyMappings);
    ValidateMappings(mm, c.entityClass, c.propertyMappings)
  }

  /** The walk succeeds exactly when every mapping in the tree obeys the rule. */
  lemma {:induction false} ValidationMeansValid(mm: Metamodel, owner: string, ms: seq<PropertyMapping>)
    ensures ValidateMappings(mm, owner, ms).Success? <==> MappingsValid(mm, owner, ms)
    decreases ms
  {
    if |ms| > 0 {
      MappingValidationMeansValid(mm, owner, ms[0]);
      ValidationMeansValid(mm, owner, ms[1..]);
      if MappingsValid(mm, owner, ms) {
        assert MappingValid(mm, owner, ms[0]);
        assert forall i :: 0 <= i < |ms[1..]| ==> ms[1..][i] == ms[i + 1];
      }
      if MappingValid(mm, owner, ms[0]) && MappingsValid(mm, owner, ms[1..]) {
        forall i | 0 <= i < |ms| ensures MappingValid(mm, owner, ms[i]) {
          if i > 0 { assert ms[i] == ms[1..][i - 1]; }
        }
      }
    }
  }

  lemma {:induction false} MappingValidationMeansValid(mm: Metamodel, owner: string, m: PropertyMapping)
    ensures ValidateMapping(mm, owner, m).Success? <==> MappingValid(mm, owner, m)
    decreases m
  {
    if m.ReferenceMultiFieldPropertyMapping? {
      var p := mm(owner, m.entityPropertyName);
      ValidationMeansValid(mm, p.rangeClass, m.referencePropertyMappings);
    }
  }

  /** A violation is reported with the embedded-policy message of some offending mapping. */
  lemma {:induction false} FailureNamesOffender(mm: Metamodel, owner: string, ms: seq<PropertyMapping>)
    requires ValidateMappings(mm, owner, ms).Failure?
    ensures exists m: PropertyMapping :: (m.ReferenceMultiFieldPropertyMapping? &&
      ValidateMappings(mm, owner, ms).error == EmbeddedPolicyMessage(m) && m.referenceImportPolicy != Some(CREATE))
    decreases ms
  {
    if ValidateMapping(mm, owner, ms[0]).Failure? {
      var m := ms[0];
      var p := mm(owner, m.entityPropertyName);
      if !(p.embedded && m.referenceImportPolicy != Some(CREATE)) {
        FailureNamesOffender(mm, p.rangeClass, m.referencePropertyMappings);
      }
    } else {
      FailureNamesOffender(mm, owner, ms[1..]);
    }
  }

  /** Mappings other than multi-field references are never checked. */
  lemma OnlyMultiFieldChecked(mm: Metamodel, owner: string, m: PropertyMapping)
    requires !m.ReferenceMultiFieldPropertyMapping?
    ensures ValidateMapping(mm, owner, m) == Success(())
  {
  }

  /** A multi-field reference to a property that is not embedded passes on any policy; only its nested mappings decide. */
  lemma NonEmbeddedAnyPolicy(mm: Metamodel, owner: string, m: PropertyMapping)
    requires m.ReferenceMultiFieldPropertyMapping? && !mm(owner, m.entityPropertyName).embedded
    ensures ValidateMapping(mm, owner, m) ==
            ValidateMappings(mm, mm(owner, m.entityPropertyName).rangeClass, m.referencePropertyMappings)
  {
  }
}
