/**
 * The mapping model of the `configuration.mapping` package: a sum of simple,
 * custom, single-field reference and multi-field reference mappings
 * (the files under configuration/mapping), with the builders of the two reference kinds.
 */
module ConfigMapping {
  import opened Wrappers
  import opened Policies

  /**
   * A custom value function is named by an id. An unset (null) data field
   * name or lookup list is `None` / the empty list.
   */
  datatype PropertyMapping =
    | SimplePropertyMapping(entityPropertyName: string, dataFieldName: Option<string>)
    | CustomPropertyMapping(entityPropertyName: string, dataFieldName: Option<string>,
                            customValueFunction: Option<nat>)
    | ReferencePropertyMapping(entityPropertyName: string, dataFieldName: Option<string>,
                               lookupPropertyName: string,
                               referenceImportPolicy: Option<ReferenceImportPolicy>)
    | ReferenceMultiFieldPropertyMapping(entityPropertyName: string, dataFieldName: Option<string>,
                                         referencePropertyMappings: seq<PropertyMapping>,
                                         lookupPropertyNames: seq<string>,
                                         referenceImportPolicy: Option<ReferenceImportPolicy>)
  {
    /** `isReference`: true exactly for the two reference kinds. */
    predicate IsReference()
    {
      ReferencePropertyMapping? || ReferenceMultiFieldPropertyMapping?
    }
  }

  /** The three-argument constructor (entity, data field, lookup): policy IGNORE_IF_MISSING. */
  function NewReferenceMapping(entityPropertyName: string, dataFieldName: string, lookupPropertyName: string): (r: PropertyMapping)
    ensures r.ReferencePropertyMapping? && r.IsReference()
    ensures r.entityPropertyName == entityPropertyName && r.dataFieldName == Some(dataFieldName)
    ensures r.lookupPropertyName == lookupPropertyName
    ensures r.referenceImportPolicy == Some(IGNORE_IF_MISSING)
  {
    ReferencePropertyMapping(entityPropertyName, Some(dataFieldName), lookupPropertyName, Some(IGNORE_IF_MISSING))
  }

  /** The four-argument constructor, whose argument order is (entity, lookup, data field, policy). */
  function NewReferenceMappingWithPolicy(entityPropertyName: string, lookupPropertyName: string, dataFieldName: string,
                                         policy: Option<ReferenceImportPolicy>): (r: PropertyMapping)
    ensures r.ReferencePropertyMapping? && r.IsReference()
    ensures r.entityPropertyName == entityPropertyName && r.dataFieldName == Some(dataFieldName)
    ensures r.lookupPropertyName == lookupPropertyName && r.referenceImportPolicy == policy
  {
    ReferencePropertyMapping(entityPropertyName, Some(dataFieldName), lookupPropertyName, policy)
  }

  /** The two constructors agree once the swapped lookup and data field arguments are lined up. */
  lemma ConstructorArgumentOrders(entity: string, dataField: string, lookup: string)
    ensures NewReferenceMapping(entity, dataField, lookup) ==
            NewReferenceMappingWithPolicy(entity, lookup, dataField, Some(IGNORE_IF_MISSING))
    ensures dataField != lookup ==>
            NewReferenceMapping(entity, dataField, lookup) != NewReferenceMappingWithPolicy(entity, dataField, lookup, Some(IGNORE_IF_MISSING))
  {
  }

  /** `ReferencePropertyMapping.Builder.build`: the three checks in order, then the builder's fields. */
  function BuildReference(entityPropertyName: Option<string>, lookupPropertyName: Option<string>,
                          dataFieldName: Option<string>, policy: Option<ReferenceImportPolicy>): (r: Result<PropertyMapping, string>)
    ensures r.Success? <==> entityPropertyName.Some? && lookupPropertyName.Some? && dataFieldName.Some?
    ensures entityPropertyName.None? ==> r == Failure("Entity property name is not set for reference property mapping")
    ensures entityPropertyName.Some? && lookupPropertyName.None? ==>
      r == Failure("Lookup property is not set for reference property [" + entityPropertyName.value + "]")
    ensures entityPropertyName.Some? && lookupPropertyName.Some? && dataFieldName.None? ==>
      r == Failure("Data field is not set for reference property [" + entityPropertyName.value + "]")
    ensures r.Success? ==> (r.value.IsReference() &&
      r.value == NewReferenceMappingWithPolicy(entityPropertyName.value, lookupPropertyName.value, dataFieldName.value, policy))
  {
    if entityPropertyName.None? then Failure("Entity property name is not set for reference property mapping")
    else if lookupPropertyName.None? then Failure("Lookup property is not set for reference property [" + entityPropertyName.value + "]")
    else if dataFieldName.None? then Failure("Data field is not set for reference property [" + entityPropertyName.value + "]")
    else Success(ReferencePropertyMapping(entityPropertyName.value, dataFieldName, lookupPropertyName.value, policy))
  }

  class ReferencePropertyMappingBuilder {
    var entityPropertyName: Option<string>
    var lookupPropertyName: Option<string>
    var referenceImportPolicy: Option<ReferenceImportPolicy>
    var dataFieldName: Option<string>

    /** `byEntityPropertyName`: the policy starts as IGNORE_IF_MISSING. */
    constructor ByEntityPropertyName(name: string)
      ensures entityPropertyName == Some(name) && lookupPropertyName.None? && dataFieldName.None?
      ensures referenceImportPolicy == Some(IGNORE_IF_MISSING)
    {
      entityPropertyName := Some(name);
      lookupPropertyName := None;
      referenceImportPolicy := Some(IGNORE_IF_MISSING);
      dataFieldName := None;
    }

    /** `builder()`: nothing set but the default policy. */
    constructor ()
      ensures entityPropertyName.None? && lookupPropertyName.None? && dataFieldName.None?
      ensures referenceImportPolicy == Some(IGNORE_IF_MISSING)
    {
      entityPropertyName := None;
      lookupPropertyName := None;
      referenceImportPolicy := Some(IGNORE_IF_MISSING);
      dataFieldName := None;
    }

    method WithLookupPropertyName(v: Option<string>)
      modifies this`lookupPropertyName ensures lookupPropertyName == v { lookupPropertyName := v; }
    method WithReferenceImportPolicy(v: Option<ReferenceImportPolicy>)
      modifies this`referenceImportPolicy ensures referenceImportPolicy == v { referenceImportPolicy := v; }
    method WithDataFieldName(v: Option<string>)
      modifies this`dataFieldName ensures dataFieldName == v { dataFieldName := v; }

    method Build() returns (r: Result<PropertyMapping, string>)
      ensures r == BuildReference(entityPropertyName, lookupPropertyName, dataFieldName, referenceImportPolicy)
    {
      r := BuildReference(entityPropertyName, lookupPropertyName, dataFieldName, referenceImportPolicy);
    }
  }

  /** A builder that is never given a policy builds with IGNORE_IF_MISSING. */
  lemma BuilderDefaultsToIgnore(entity: string, lookup: string, dataField: string)
    ensures BuildReference(Some(entity), Some(lookup), Some(dataField), Some(IGNORE_IF_MISSING)) ==
            Success(NewReferenceMapping(entity, dataField, lookup))
  {
  }

  /** The entity property names of the mappings, in order. */
  function EntityPropertyNames(ms: seq<PropertyMapping>): (r: seq<string>)
    ensures |r| == |ms|
    ensures forall i :: 0 <= i < |ms| ==> r[i] == ms[i].entityPropertyName
  {
    seq(|ms|, i requires 0 <= i < |ms| => ms[i].entityPropertyName)
  }

  /** The lookup names `build` uses: all nested property names when asked, else the explicit list. */
  function EffectiveLookupNames(mappings: seq<PropertyMapping>, lookupPropertyNames: seq<string>,
                                lookupByAllSimpleProperties: bool): seq<string>
  {
    if lookupByAllSimpleProperties then EntityPropertyNames(mappings) else lookupPropertyNames
  }

  /** `ReferenceMultiFieldPropertyMapping.Builder.build` on the builder's fields. */
  function BuildMultiField(entityPropertyName: string, dataFieldName: Option<string>,
                           mappings: seq<PropertyMapping>, lookupPropertyNames: seq<string>,
                           policy: Option<ReferenceImportPolicy>, lookupByAllSimpleProperties: bool): (r: Result<PropertyMapping, string>)
    ensures var lookups := EffectiveLookupNames(mappings, lookupPropertyNames, lookupByAllSimpleProperties);
      r.Success? <==> policy.Some? && (policy == Some(CREATE) || |lookups| > 0)
    ensures policy.None? ==> r == Failure("Reference import policy is not set for property [" + entityPropertyName + "]")
    ensures var lookups := EffectiveLookupNames(mappings, lookupPropertyNames, lookupByAllSimpleProperties);
      policy.Some? && policy != Some(CREATE) && |lookups| == 0 ==>
      r == Failure("Lookup properties are not set for property [" + entityPropertyName + "]")
    ensures r.Success? ==> (r.value.IsReference() &&
      r.value == ReferenceMultiFieldPropertyMapping(entityPropertyName, dataFieldName, mappings,
        EffectiveLookupNames(mappings, lookupPropertyNames, lookupByAllSimpleProperties), policy))
  {
    var lookups := EffectiveLookupNames(mappings, lookupPropertyNames, lookupByAllSimpleProperties);
    if policy.None? then Failure("Reference import policy is not set for property [" + entityPropertyName + "]")
    else if policy.value != CREATE && |lookups| == 0 then Failure("Lookup properties are not set for property [" + entityPropertyName + "]")
    else Success(ReferenceMultiFieldPropertyMapping(entityPropertyName, dataFieldName, mappings, lookups, policy))
  }

  /** With `lookupByAllSimpleProperties`, explicit lookup names make no difference. */
  lemma LookupByAllOverridesExplicit(entity: string, dataField: Option<string>, mappings: seq<PropertyMapping>,
                                     explicit1: seq<string>, explicit2: seq<string>, policy: Option<ReferenceImportPolicy>)
    ensures BuildMultiField(entity, dataField, mappings, explicit1, policy, true) ==
            BuildMultiField(entity, dataField, mappings, explicit2, policy, true)
  {
  }

  /** CREATE needs no lookup names; any other policy with none is refused. */
  lemma CreateNeedsNoLookup(entity: string, dataField: Option<string>, mappings: seq<PropertyMapping>,
                            policy: ReferenceImportPolicy)
    ensures BuildMultiField(entity, dataField, mappings, [], Some(policy), false).Success? <==> policy == CREATE
  {
  }

  class ReferenceMultiFieldBuilder {
    var entityPropertyName: string
    var referencePropertyMappings: seq<PropertyMapping>
    var lookupPropertyNames: seq<string>
    var referenceImportPolicy: Option<ReferenceImportPolicy>
    var dataFieldName: Option<string>
    var lookupByAllSimpleProperties: bool

    /** The lookup list starts empty. */
    constructor (entityPropertyName: string, policy: Option<ReferenceImportPolicy>)
      ensures this.entityPropertyName == entityPropertyName && referenceImportPolicy == policy
      ensures referencePropertyMappings == [] && lookupPropertyNames == []
      ensures dataFieldName.None? && !lookupByAllSimpleProperties
    {
      this.entityPropertyName := entityPropertyName;
      referencePropertyMappings := [];
      lookupPropertyNames := [];
      referenceImportPolicy := policy;
      dataFieldName := None;
      lookupByAllSimpleProperties := false;
    }

    method AddSimplePropertyMapping(name: string, field: Option<string>)
      modifies this`referencePropertyMappings
      ensures referencePropertyMappings == old(referencePropertyMappings) + [SimplePropertyMapping(name, field)]
    {
      referencePropertyMappings := referencePropertyMappings + [SimplePropertyMapping(name, field)];
    }

    method AddCustomPropertyMapping(name: string, field: Option<string>, fn: Option<nat>)
      modifies this`referencePropertyMappings
      ensures referencePropertyMappings == old(referencePropertyMappings) + [CustomPropertyMapping(name, field, fn)]
    {
      referencePropertyMappings := referencePropertyMappings + [CustomPropertyMapping(name, field, fn)];
    }

    /** The overload without a data field. */
    method AddCustomPropertyMappingWithoutField(name: string, fn: Option<nat>)
      modifies this`referencePropertyMappings
      ensures referencePropertyMappings == old(referencePropertyMappings) + [CustomPropertyMapping(name, None, fn)]
    {
      referencePropertyMappings := referencePropertyMappings + [CustomPropertyMapping(name, None, fn)];
    }

    /** A single-field reference with the given fields, appended without validation. */
    method AddReferencePropertyMapping(name: string, field: Option<string>, lookup: string,
                                       policy: Option<ReferenceImportPolicy>)
      modifies this`referencePropertyMappings
      ensures referencePropertyMappings == old(referencePropertyMappings) + [ReferencePropertyMapping(name, field, lookup, policy)]
    {
      referencePropertyMappings := referencePropertyMappings + [ReferencePropertyMapping(name, field, lookup, policy)];
    }

    method AddPropertyMapping(m: PropertyMapping)
      modifies this`referencePropertyMappings
      ensures referencePropertyMappings == old(referencePropertyMappings) + [m]
    {
      referencePropertyMappings := referencePropertyMappings + [m];
    }

    method WithLookupPropertyNames(names: seq<string>)
      modifies this`lookupPropertyNames ensures lookupPropertyNames == names { lookupPropertyNames := names; }

    method LookupByAllSimpleProperties()
      modifies this`lookupByAllSimpleProperties ensures lookupByAllSimpleProperties { lookupByAllSimpleProperties := true; }

    method WithDataFieldName(v: Option<string>)
      modifies this`dataFieldName ensures dataFieldName == v { dataFieldName := v; }

    /** The effective lookup names are stored before validation, so a refused build still changes them. */
    method Build() returns (r: Result<PropertyMapping, string>)
      modifies this`lookupPropertyNames
      ensures lookupPropertyNames == EffectiveLookupNames(referencePropertyMappings, old(lookupPropertyNames), lookupByAllSimpleProperties)
      ensures r == BuildMultiField(entityPropertyName, dataFieldName, referencePropertyMappings,
                                   old(lookupPropertyNames), referenceImportPolicy, lookupByAllSimpleProperties)
    {
      if lookupByAllSimpleProperties {
        lookupPropertyNames := EntityPropertyNames(referencePropertyMappings);
      }
      if referenceImportPolicy.None? {
        r := Failure("Reference import policy is not set for property [" + entityPropertyName + "]");
      } else if referenceImportPolicy.value != CREATE && |lookupPropertyNames| == 0 {
        r := Failure("Lookup properties are not set for property [" + entityPropertyName + "]");
      } else {
        r := Success(ReferenceMultiFieldPropertyMapping(entityPropertyName, dataFieldName, referencePropertyMappings,
                                                        lookupPropertyNames, referenceImportPolicy));
      }
    }
  }
}
