/**
 * The import configuration of the `configuration` package
 * (configuration/ImportConfiguration.java) and its list-based builder
 * (configuration/ImportConfigurationBuilder.java).
 */
module Configuration {
  import opened Wrappers
  import opened Policies
  import opened Coercion
  import opened ConfigMapping

  const UTF8: string := "UTF-8"

  /** The entity class is named by its meta-class name; a pre-import predicate by an id. */
  datatype ImportConfiguration = ImportConfiguration(
    entityClass: string,
    code: string,
    name: Option<string>,
    propertyMappings: seq<PropertyMapping>,
    transactionStrategy: Option<ImportTransactionStrategy>,
    inputDataFormat: Option<string>,
    dateFormat: Option<string>,
    booleanTrueValue: Option<string>,
    booleanFalseValue: Option<string>,
    inputDataCharset: Option<string>,
    uniqueEntityConfigurations: seq<UniqueEntityConfiguration>,
    preImportPredicate: Option<nat>)
  {
    /** The literals and format the value coercion reads from the configuration. */
    function Formats(): (r: Formats)
      ensures r.booleanTrueValue == booleanTrueValue && r.booleanFalseValue == booleanFalseValue
      ensures r.dateFormat == dateFormat
    {
      Coercion.Formats(booleanTrueValue, booleanFalseValue, dateFormat)
    }
  }

  class ImportConfigurationBuilder {
    var entityClass: string
    var name: Option<string>
    var code: string
    var propertyMappings: seq<PropertyMapping>
    var transactionStrategy: Option<ImportTransactionStrategy>
    var inputDataFormat: Option<string>
    var dateFormat: Option<string>
    var booleanTrueValue: Option<string>
    var booleanFalseValue: Option<string>
    var inputDataCharset: Option<string>
    var preImportPredicate: Option<nat>
    var uniqueEntityConfigurations: seq<UniqueEntityConfiguration>

    /** Also `of`: empty lists and the UTF-8 charset. */
    constructor (entityClass: string, code: string)
      ensures this.entityClass == entityClass && this.code == code
      ensures propertyMappings == [] && uniqueEntityConfigurations == [] && inputDataCharset == Some(UTF8)
      ensures name.None? && transactionStrategy.None? && inputDataFormat.None? && dateFormat.None?
      ensures booleanTrueValue.None? && booleanFalseValue.None? && preImportPredicate.None?
    {
      this.entityClass := entityClass;
      this.code := code;
      name := None;
      propertyMappings := [];
      transactionStrategy := None;
      inputDataFormat := None;
      dateFormat := None;
      booleanTrueValue := None;
      booleanFalseValue := None;
      inputDataCharset := Some(UTF8);
      preImportPredicate := None;
      uniqueEntityConfigurations := [];
    }

    method WithName(v: Option<string>) modifies this`name ensures name == v { name := v; }
    method WithFileCharset(v: Option<string>) modifies this`inputDataCharset ensures inputDataCharset == v { inputDataCharset := v; }
    method WithTransactionStrategy(v: Option<ImportTransactionStrategy>)
      modifies this`transactionStrategy ensures transactionStrategy == v { transactionStrategy := v; }
    method WithDateFormat(v: Option<string>) modifies this`dateFormat ensures dateFormat == v { dateFormat := v; }
    method WithInputDataFormat(v: Option<string>) modifies this`inputDataFormat ensures inputDataFormat == v { inputDataFormat := v; }
    method WithPreImportPredicate(v: Option<nat>)
      modifies this`preImportPredicate ensures preImportPredicate == v { preImportPredicate := v; }

    /** Both literals are set together. */
    method WithBooleanFormats(trueValue: Option<string>, falseValue: Option<string>)
      modifies this`booleanTrueValue, this`booleanFalseValue
      ensures booleanTrueValue == trueValue && booleanFalseValue == falseValue
    {
      booleanTrueValue := trueValue;
      booleanFalseValue := falseValue;
    }

    /** Appended in call order; an equal earlier mapping is kept. */
    method AddSimplePropertyMapping(entityPropertyName: string, dataFieldName: Option<string>)
      modifies this`propertyMappings
      ensures propertyMappings == old(propertyMappings) + [SimplePropertyMapping(entityPropertyName, dataFieldName)]
    {
      propertyMappings := propertyMappings + [SimplePropertyMapping(entityPropertyName, dataFieldName)];
    }

    method AddCustomPropertyMapping(entityPropertyName: string, dataFieldName: Option<string>, customValueFunction: Option<nat>)
      modifies this`propertyMappings
      ensures propertyMappings == old(propertyMappings) + [CustomPropertyMapping(entityPropertyName, dataFieldName, customValueFunction)]
    {
      propertyMappings := propertyMappings + [CustomPropertyMapping(entityPropertyName, dataFieldName, customValueFunction)];
    }

    method AddPropertyMapping(m: PropertyMapping)
      modifies this`propertyMappings
      ensures propertyMappings == old(propertyMappings) + [m]
    {
      propertyMappings := propertyMappings + [m];
    }

    /**
     * Through ReferencePropertyMapping's builder: a validation error leaves
     * the list as it was and is returned; otherwise the built mapping is appended.
     */
    method AddReferencePropertyMapping(entityPropertyName: string, lookupPropertyName: Option<string>,
                                       dataFieldName: Option<string>, policy: Option<ReferenceImportPolicy>)
      returns (r: Result<(), string>)
      modifies this`propertyMappings
      ensures var built := BuildReference(Some(entityPropertyName), lookupPropertyName, dataFieldName, policy);
        (built.Failure? ==> r == Failure(built.error) && propertyMappings == old(propertyMappings)) &&
        (built.Success? ==> r.Success? && propertyMappings == old(propertyMappings) + [built.value])
    {
      var built := BuildThroughBuilder(entityPropertyName, lookupPropertyName, dataFieldName, policy);
      if built.Failure? {
        r := Failure(built.error);
      } else {
        propertyMappings := propertyMappings + [built.value];
        r := Success(());
      }
    }

    /** Both overloads: one configuration appended, in call order. */
    method AddUniqueEntityConfiguration(policy: Option<DuplicateEntityPolicy>, entityPropertyNames: seq<string>)
      modifies this`uniqueEntityConfigurations
      ensures uniqueEntityConfigurations == old(uniqueEntityConfigurations) + [UniqueEntityConfiguration(entityPropertyNames, policy)]
    {
      uniqueEntityConfigurations := uniqueEntityConfigurations + [UniqueEntityConfiguration(entityPropertyNames, policy)];
    }

    /** A configuration carrying every builder field. */
    method Build() returns (c: ImportConfiguration)
      ensures c.entityClass == entityClass && c.code == code && c.name == name
      ensures c.propertyMappings == propertyMappings && c.transactionStrategy == transactionStrategy
      ensures c.inputDataFormat == inputDataFormat && c.dateFormat == dateFormat
      ensures c.booleanTrueValue == booleanTrueValue && c.booleanFalseValue == booleanFalseValue
      ensures c.inputDataCharset == inputDataCharset && c.preImportPredicate == preImportPredicate
      ensures c.uniqueEntityConfigurations == uniqueEntityConfigurations
    {
      c := ImportConfiguration(entityClass, code, name, propertyMappings, transactionStrategy, inputDataFormat,
                               dateFormat, booleanTrueValue, booleanFalseValue, inputDataCharset,
                               uniqueEntityConfigurations, preImportPredicate);
    }
  }

  /** The reference mapping the builder chain of `addReferencePropertyMapping` builds, or its validation error. */
  method BuildThroughBuilder(entityPropertyName: string, lookupPropertyName: Option<string>,
                             dataFieldName: Option<string>, policy: Option<ReferenceImportPolicy>)
    returns (built: Result<PropertyMapping, string>)
    ensures built == BuildReference(Some(entityPropertyName), lookupPropertyName, dataFieldName, policy)
  {
    var b := new ReferencePropertyMappingBuilder.ByEntityPropertyName(entityPropertyName);
    b.WithDataFieldName(dataFieldName);
    b.WithReferenceImportPolicy(policy);
    b.WithLookupPropertyName(lookupPropertyName);
    built := b.Build();
  }

  lemma AddedReferenceCarriesArguments(entity: string, lookup: string, dataField: string, policy: Option<ReferenceImportPolicy>)
    ensures BuildReference(Some(entity), Some(lookup), Some(dataField), policy) ==
            Success(NewReferenceMappingWithPolicy(entity, lookup, dataField, policy))
  {
  }

  /** Without a lookup property the reference mapping is refused, whatever else is given. */
  lemma ReferenceWithoutLookupRefused(entity: string, dataField: Option<string>, policy: Option<ReferenceImportPolicy>)
    ensures BuildReference(Some(entity), None, dataField, policy) ==
            Failure("Lookup property is not set for reference property [" + entity + "]")
  {
  }
}
