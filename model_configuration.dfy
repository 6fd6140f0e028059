/**
 * The import configuration of the `model.configuration` package: one mapping
 * class with an association flag and nested mappings
 * (model/configuration/mapping/PropertyMapping.java), and the configuration
 * object (model/configuration/ImportConfiguration.java).
 */
module ModelConfiguration {
  import opened Wrappers
  import opened RawData
  import opened Coercion
  import opened Policies

  /**
   * A mapping from a data field to an entity property. An association mapping
   * carries the mappings of the associated entity's properties in
   * `propertyMappings`. A custom value function is named by an id.
   */
  datatype PropertyMapping = PropertyMapping(
    propertyName: string,
    fieldName: Option<string>,
    isAssociation: bool,
    defaultValue: Value,
    customValueFunction: Option<nat>,
    referenceEntityPolicy: Option<ReferenceEntityPolicy>,
    propertyMappings: seq<PropertyMapping>)
  {
    /** `addSimplePropertyMapping`: one simple child appended at the end; nothing else changes. */
    function AddSimplePropertyMapping(childName: string, childField: Option<string>): (r: PropertyMapping)
      ensures r.propertyMappings == propertyMappings + [NewPropertyMapping(childName, childField)]
      ensures r == this.(propertyMappings := r.propertyMappings)
    {
      this.(propertyMappings := propertyMappings + [NewPropertyMapping(childName, childField)])
    }

    /** `addPropertyMapping`: the given child appended at the end; nothing else changes. */
    function AddPropertyMapping(child: PropertyMapping): (r: PropertyMapping)
      ensures r.propertyMappings == propertyMappings + [child]
      ensures r == this.(propertyMappings := r.propertyMappings)
    {
      this.(propertyMappings := propertyMappings + [child])
    }
  }

  /** The two-argument constructor: a simple mapping with no children, default value null. */
  function NewPropertyMapping(propertyName: string, fieldName: Option<string>): (r: PropertyMapping)
    ensures r.propertyName == propertyName && r.fieldName == fieldName
    ensures !r.isAssociation && r.propertyMappings == [] && r.defaultValue == Null
    ensures r.customValueFunction.None? && r.referenceEntityPolicy.None?
  {
    PropertyMapping(propertyName, fieldName, false, Null, None, None, [])
  }

  /** The three-argument constructor: an association mapping with the given policy and no children yet. */
  function NewAssociationMapping(propertyName: string, fieldName: Option<string>,
                                 policy: Option<ReferenceEntityPolicy>): (r: PropertyMapping)
    ensures r.propertyName == propertyName && r.fieldName == fieldName
    ensures r.isAssociation && r.referenceEntityPolicy == policy
    ensures r.propertyMappings == [] && r.defaultValue == Null && r.customValueFunction.None?
  {
    PropertyMapping(propertyName, fieldName, true, Null, None, policy, [])
  }

  /** Build a tree by repeated `addSimplePropertyMapping`: the children are the calls, in call order. */
  lemma {:induction false} AddSimpleInCallOrder(m: PropertyMapping, children: seq<(string, Option<string>)>)
    ensures AddAllSimple(m, children).propertyMappings ==
      m.propertyMappings + seq(|children|, i requires 0 <= i < |children| => NewPropertyMapping(children[i].0, children[i].1))
    ensures AddAllSimple(m, children).isAssociation == m.isAssociation
  {
    if |children| > 0 {
      var n := |children| - 1;
      AddSimpleInCallOrder(m, children[..n]);
      var added := seq(n, i requires 0 <= i < n => NewPropertyMapping(children[i].0, children[i].1));
      var all := seq(|children|, i requires 0 <= i < |children| => NewPropertyMapping(children[i].0, children[i].1));
      assert all == added + [NewPropertyMapping(children[n].0, children[n].1)];
      assert children[..n] == children[..n];
      assert forall i :: 0 <= i < n ==> children[..n][i] == children[i];
    }
  }

  /** Repeated `addSimplePropertyMapping` calls. */
  function AddAllSimple(m: PropertyMapping, children: seq<(string, Option<string>)>): PropertyMapping
  {
    if |children| == 0 then m
    else AddAllSimple(m, children[..|children| - 1]).AddSimplePropertyMapping(children[|children| - 1].0, children[|children| - 1].1)
  }

  /** `setTransactionStrategy(ImportTransactionStrategy)`: what the configuration stores, the id. */
  function EncodeStrategy(strategy: Option<ImportTransactionStrategy>): Option<string>
  {
    match strategy
    case None => None
    case Some(s) => Some(s.Id())
  }

  /** `getTransactionStrategy`: a stored id decoded by `fromId`, null when nothing is stored. */
  function DecodeStrategy(id: Option<string>): Option<ImportTransactionStrategy>
  {
    match id
    case None => None
    case Some(s) => StrategyFromId(s)
  }

  /** A strategy stored as its id reads back as that strategy; a null one reads back as null. */
  lemma StrategyRoundTrip(strategy: Option<ImportTransactionStrategy>)
    ensures DecodeStrategy(EncodeStrategy(strategy)) == strategy
  {
  }

  /** An id no strategy has reads back as null. */
  lemma UnknownStrategyIdReadsNull(id: string)
    requires id != "SINGLE_TRANSACTION" && id != "MULTIPLE_TRANSACTIONS"
    ensures DecodeStrategy(Some(id)) == None
  {
  }

  const UTF8: string := "UTF-8"

  class ImportConfiguration {
    var name: Option<string>
    var code: string
    var propertyMappings: seq<PropertyMapping>
    var transactionStrategy: Option<string>
    var entityMetaClass: Option<string>
    var inputDataFormat: Option<string>
    var dateFormat: Option<string>
    var booleanTrueValue: Option<string>
    var booleanFalseValue: Option<string>
    var fileCharset: Option<string>
    var uniqueEntityConfigurations: seq<UniqueEntityConfiguration>
    var preImportPredicate: Option<nat>

    /** The mapping and uniqueness lists are null until set in the source; here they start empty. */
    constructor (entityMetaClass: Option<string>, code: string)
      ensures this.entityMetaClass == entityMetaClass && this.code == code
      ensures fileCharset == Some(UTF8)
      ensures name.None? && transactionStrategy.None? && inputDataFormat.None? && dateFormat.None?
      ensures booleanTrueValue.None? && booleanFalseValue.None? && preImportPredicate.None?
      ensures propertyMappings == [] && uniqueEntityConfigurations == []
    {
      this.entityMetaClass := entityMetaClass;
      this.code := code;
      name := None;
      propertyMappings := [];
      transactionStrategy := None;
      inputDataFormat := None;
      dateFormat := None;
      booleanTrueValue := None;
      booleanFalseValue := None;
      fileCharset := Some(UTF8);
      uniqueEntityConfigurations := [];
      preImportPredicate := None;
    }

    function GetTransactionStrategy(): (r: Option<ImportTransactionStrategy>)
      reads this
      ensures transactionStrategy.None? ==> r.None?
      ensures r.Some? ==> transactionStrategy == Some(r.value.Id())
    {
      DecodeStrategy(transactionStrategy)
    }

    method SetTransactionStrategy(strategy: Option<ImportTransactionStrategy>)
      modifies this`transactionStrategy
      ensures transactionStrategy == EncodeStrategy(strategy)
      ensures GetTransactionStrategy() == strategy
    {
      transactionStrategy := EncodeStrategy(strategy);
      StrategyRoundTrip(strategy);
    }

    /** `setTransactionStrategy(String)`: the raw id is stored as given, and decoded only when read. */
    method SetTransactionStrategyId(id: Option<string>)
      modifies this`transactionStrategy
      ensures transactionStrategy == id
    {
      transactionStrategy := id;
    }

    method SetName(v: Option<string>) modifies this`name ensures name == v { name := v; }
    method SetCode(v: string) modifies this`code ensures code == v { code := v; }
    method SetPropertyMappings(v: seq<PropertyMapping>) modifies this`propertyMappings ensures propertyMappings == v { propertyMappings := v; }
    method SetEntityMetaClass(v: Option<string>) modifies this`entityMetaClass ensures entityMetaClass == v { entityMetaClass := v; }
    method SetInputDataFormat(v: Option<string>) modifies this`inputDataFormat ensures inputDataFormat == v { inputDataFormat := v; }
    method SetDateFormat(v: Option<string>) modifies this`dateFormat ensures dateFormat == v { dateFormat := v; }
    method SetBooleanTrueValue(v: Option<string>) modifies this`booleanTrueValue ensures booleanTrueValue == v { booleanTrueValue := v; }
    method SetBooleanFalseValue(v: Option<string>) modifies this`booleanFalseValue ensures booleanFalseValue == v { booleanFalseValue := v; }
    method SetFileCharset(v: Option<string>) modifies this`fileCharset ensures fileCharset == v { fileCharset := v; }
    method SetUniqueEntityConfigurations(v: seq<UniqueEntityConfiguration>)
      modifies this`uniqueEntityConfigurations ensures uniqueEntityConfigurations == v { uniqueEntityConfigurations := v; }
    method SetPreImportPredicate(v: Option<nat>) modifies this`preImportPredicate ensures preImportPredicate == v { preImportPredicate := v; }

    /** The literals and format SimplePropertyValueProvider reads from the configuration. */
    function Formats(): (r: Formats)
      reads this
      ensures r.booleanTrueValue == booleanTrueValue && r.booleanFalseValue == booleanFalseValue
      ensures r.dateFormat == dateFormat
    {
      Coercion.Formats(booleanTrueValue, booleanFalseValue, dateFormat)
    }
  }
}
