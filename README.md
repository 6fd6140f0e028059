# jmix-dataimport, modelled in Dafny

This project models the import engine of the Jmix data import add-on. The
add-on reads a file, builds raw data from it, turns each data item into
entity instances by an import configuration, and then decides what to
store. The model covers these parts:

- **Raw data** (`raw_data.dfy`): `ImportedObject`, `ImportedDataItem`,
  `ImportedObjectList` and `ImportedData`. A raw value is null, a string, a
  nested object, an object list, an entity instance or a collection of
  instances.
- **Raw-data builders** (`json_extractor.dfy`, `xml_extractor.dfy`,
  `csv_extractor.dfy`, `field_names.dfy`). They start from the parsed JSON
  node tree, the parsed XML element tree or the CSV rows. They number the
  items, collect field names in first-seen order and group XML elements by tag.
- **The two mapping models.**
  - The sum type of `configuration.mapping` (simple, custom, reference,
    multi-field reference), with its builders, its configuration builder and
    `ImportConfigurationValidator`: `config_mapping.dfy`,
    `config_builder.dfy`, `config_validation.dfy`.
  - The single `PropertyMapping` class of `model.configuration`, with its
    configuration and builder: `model_configuration.dfy`,
    `model_builder.dfy`.
- **Value coercion** (`coercion.dfy`): `SimplePropertyValueProvider`. Its
  Integer and Long results are checked against the 32- and 64-bit ranges.
- **Population.**
  - `binding.dfy` and `population.dfy` hold the `model.configuration`
    binders, association creator and populator, as mutually recursive
    methods over an entity heap.
  - `reference_population.dfy` holds the `configuration.mapping` populator,
    value provider, lookup values and reference creator.
- **Entity extraction** (`entity_extractor.dfy`): `EntityExtractorImpl`.
  Batch extraction merges an item into an earlier instance whose lookup
  values match. It also pools newly created associations per mapping.
- **The import orchestrator** (`executor_spec.dfy`, `executor.dfy`):
  `DataImportExecutor` and `ImportResult` (`import_result.dfy`).
  - It validates the mapping tree.
  - It applies the SKIP, UPDATE and ABORT uniqueness policies and the
    pre-import predicate.
  - It imports in one transaction or in one transaction per item, and
    records typed failures.
  - Each executor method is proved equal to a step function. The step
    functions' properties are proved as lemmas.
- **Entities** (`entities.dfy`, `metadata.dfy`). An entity instance is an id
  into an `EntityHeap`. The heap maps each id to the instance's entity class,
  its property values and its `isNew` flag.
  - The services the importer calls are functions passed in as parameters:
    the metamodel, the duplicate finder and loader, custom value functions,
    the date and decimal parsers, and storing.
  - Their behaviour is not modelled. Only the facts the code relies on are
    stated, such as "the finder answers a member of the pool".

Java's `null` and thrown exceptions are explicit in the model: an `Option`,
or a `Result` carrying the exception's message. Every source path below is
relative to the repository root.

## Model

| member | source | states |
|---|---|---|
| RawData.ImportedObject.GetRawValue | dataimport/src/main/java/io/jmix/dataimport/extractor/data/ImportedObject.java:50-53 | a field never put reads as null; a field put reads its value |
| RawData.ImportedObject.AddRawValue | dataimport/src/main/java/io/jmix/dataimport/extractor/data/ImportedObject.java:45-48 | the field then reads the new value, every other field reads as before, and the keys gain exactly that field (a later put replaces an earlier one) |
| RawData.ImportedObject.SetRawValues | dataimport/src/main/java/io/jmix/dataimport/extractor/data/ImportedObject.java:33-35 | the holder then reads exactly the given map, absent fields as null |
| RawData.AbsentReadsAsStoredNull | dataimport/src/main/java/io/jmix/dataimport/extractor/data/ImportedObject.java:45-53 | a field never put and a field put as null read the same, null |
| RawData.ImportedDataItem.GetRawValue | dataimport/src/main/java/io/jmix/dataimport/extractor/data/ImportedDataItem.java:51-54 | a field never put reads as null; a field put reads its value |
| RawData.ImportedDataItem.AddRawValue | dataimport/src/main/java/io/jmix/dataimport/extractor/data/ImportedDataItem.java:46-49 | the field then reads the new value, every other field and the item index are unchanged |
| RawData.ImportedDataItem.SetItemIndex | dataimport/src/main/java/io/jmix/dataimport/extractor/data/ImportedDataItem.java:37-40 | the index becomes the given one and the raw values are unchanged |
| RawData.ImportedDataItem.SetRawValues | dataimport/src/main/java/io/jmix/dataimport/extractor/data/ImportedDataItem.java:42-44 | the item then reads exactly the given map and keeps its index |
| RawData.ImportedDataItem.AsObject | dataimport/src/main/java/io/jmix/dataimport/extractor/data/ImportedDataItem.java:25-27 | an item read as a raw values source gives the same value for every field |
| RawData.EmptyItem | dataimport/src/main/java/io/jmix/dataimport/extractor/data/ImportedDataItem.java:26-27 | a new item has index 0 and every field reads as null |
| RawData.ImportedData.constructor | dataimport/src/main/java/io/jmix/dataimport/extractor/data/ImportedData.java:26-27 | fresh data has no items and no field names |
| RawData.ImportedData.AddItem | dataimport/src/main/java/io/jmix/dataimport/extractor/data/ImportedData.java:46-48 | appends exactly the item; the field names are untouched |
| RawData.ImportedData.AddFieldName | dataimport/src/main/java/io/jmix/dataimport/extractor/data/ImportedData.java:50-52 | appends the name even when already present; the items are untouched |
| RawData.ImportedData.SetItems | dataimport/src/main/java/io/jmix/dataimport/extractor/data/ImportedData.java:33-35 | the items become the given list |
| RawData.ImportedData.SetFieldNames | dataimport/src/main/java/io/jmix/dataimport/extractor/data/ImportedData.java:41-43 | the field names become the given list |
| RawData.ImportedData.GetDataItem | dataimport/src/main/java/io/jmix/dataimport/extractor/data/ImportedData.java:54-60 | succeeds exactly when some item has the index, and then gives the first such item; no match is the NullPointerException of requireNonNull |
| RawData.FirstWithIndex | dataimport/src/main/java/io/jmix/dataimport/extractor/data/ImportedData.java:56-59 | the position found holds the index and no earlier item does; none found means no item holds it |
| RawData.NumberedItemsAreFound | dataimport/src/main/java/io/jmix/dataimport/extractor/data/ImportedData.java:54-60 | when items are numbered 1..n, as the extractors number them, index k+1 finds item k |
| Policies.FindPolicyById | dataimport/src/main/java/io/jmix/dataimport/model/configuration/DuplicateEntityPolicy.java:25-32 | an answer is a candidate with that id; no answer means no candidate has it |
| Policies.DuplicatePolicyFromId | dataimport/src/main/java/io/jmix/dataimport/model/configuration/DuplicateEntityPolicy.java:10-32 | gives a constant exactly for the ids SKIP, UPDATE and ABORT, and that constant's id is the one asked for; any other id gives null |
| Policies.DuplicatePolicyIdRoundTrip | dataimport/src/main/java/io/jmix/dataimport/model/configuration/DuplicateEntityPolicy.java:10-32 | looking up a constant's own id gives that constant back |
| ImportResults.InitialState | dataimport/src/main/java/io/jmix/dataimport/result/ImportResult.java:22-31 | a fresh result is successful, has processed nothing, holds no ids and no failures, and has no code and no message |
| ImportResults.ImportResult.constructor | dataimport/src/main/java/io/jmix/dataimport/result/ImportResult.java:22-31 | the new result's state is the initial state |
| ImportResults.ImportResult.SetSuccess | dataimport/src/main/java/io/jmix/dataimport/result/ImportResult.java:37-40 | only the success flag changes |
| ImportResults.ImportResult.SetImportedEntityIds | dataimport/src/main/java/io/jmix/dataimport/result/ImportResult.java:46-49 | only the id list changes |
| ImportResults.ImportResult.SetFailedEntities | dataimport/src/main/java/io/jmix/dataimport/result/ImportResult.java:55-58 | only the failure list changes |
| ImportResults.ImportResult.SetNumOfProcessedEntities | dataimport/src/main/java/io/jmix/dataimport/result/ImportResult.java:64-67 | only the processed count changes |
| ImportResults.ImportResult.AddImportedEntityId | dataimport/src/main/java/io/jmix/dataimport/result/ImportResult.java:69-72 | the id list gains exactly the id at its end; nothing else changes |
| ImportResults.ImportResult.AddFailedEntity | dataimport/src/main/java/io/jmix/dataimport/result/ImportResult.java:74-77 | the failure list gains exactly the error at its end; nothing else changes |
| ImportResults.ImportResult.SetErrorMessage | dataimport/src/main/java/io/jmix/dataimport/result/ImportResult.java:83-86 | only the message changes |
| ImportResults.ImportResult.SetConfigurationCode | dataimport/src/main/java/io/jmix/dataimport/result/ImportResult.java:92-94 | only the configuration code changes |
| Coercion.ParseDecimal | dataimport/src/main/java/io/jmix/dataimport/property/binding/impl/SimplePropertyValueProvider.java:113-139 | the radix-10 syntax of parseInt/parseLong: an accepted string is not empty |
| Coercion.ParseInteger | dataimport/src/main/java/io/jmix/dataimport/property/binding/impl/SimplePropertyValueProvider.java:131-134 | an accepted string denotes a number within Integer's range; out of range or malformed is the NumberFormatException |
| Coercion.ParseLong | dataimport/src/main/java/io/jmix/dataimport/property/binding/impl/SimplePropertyValueProvider.java:117-120 | an accepted string denotes a number within Long's range; out of range or malformed is the NumberFormatException |
| Coercion.NaturalString | dataimport/src/main/java/io/jmix/dataimport/property/binding/impl/SimplePropertyValueProvider.java:131 | the decimal form of a natural number is a non-empty digit string |
| Coercion.NaturalStringValue | dataimport/src/main/java/io/jmix/dataimport/property/binding/impl/SimplePropertyValueProvider.java:131 | the digits of a natural number's decimal form denote that number |
| Coercion.DecimalRoundTrip | dataimport/src/main/java/io/jmix/dataimport/property/binding/impl/SimplePropertyValueProvider.java:113-139 | the decimal form of any integer parses back to it |
| Coercion.IntegerValueOf | dataimport/src/main/java/io/jmix/dataimport/property/binding/impl/SimplePropertyValueProvider.java:127-139 | an Integer raw value passes through; a string gives the Integer parseInt reads from it when parseInt accepts it and null otherwise; any other raw value gives null |
| Coercion.LongValueOf | dataimport/src/main/java/io/jmix/dataimport/property/binding/impl/SimplePropertyValueProvider.java:113-125 | a Long raw value passes through; a string gives the Long parseLong reads from it when parseLong accepts it and null otherwise; any other raw value gives null |
| Coercion.ToUpperCase | dataimport/src/main/java/io/jmix/dataimport/property/binding/impl/SimplePropertyValueProvider.java:72 | each character replaced by its upper-case form, ASCII letters only |
| Coercion.BooleanValueOf | dataimport/src/main/java/io/jmix/dataimport/property/binding/impl/SimplePropertyValueProvider.java:145-166 | a Boolean raw value passes through and any non-string gives null; without custom literals a string gives true exactly for "true" in any case; with one, the true literal wins, then the false literal, else null |
| Coercion.EnumValueOf | dataimport/src/main/java/io/jmix/dataimport/property/binding/impl/SimplePropertyValueProvider.java:68-83 | a result is a constant of the enum, and it names the upper-cased raw string; otherwise null |
| Coercion.GetValue | dataimport/src/main/java/io/jmix/dataimport/property/binding/impl/SimplePropertyValueProvider.java:42-66 | the result is the coerced value when that is not null, else the mapping's default value |
| Coercion.IntegerPropertyFromDecimal | dataimport/src/main/java/io/jmix/dataimport/property/binding/impl/SimplePropertyValueProvider.java:46-139 | an Integer property receives a decimal's number exactly when it lies within Integer's range, else the default value |
| Coercion.LongPropertyFromDecimal | dataimport/src/main/java/io/jmix/dataimport/property/binding/impl/SimplePropertyValueProvider.java:48-125 | a Long property receives a decimal's number exactly when it lies within Long's range, else the default value |
| Coercion.IntegerOverflowIsNotLongOverflow | dataimport/src/main/java/io/jmix/dataimport/property/binding/impl/SimplePropertyValueProvider.java:46-49 | 2147483648 falls back to the default for an Integer property and is kept for a Long property |
| Coercion.BooleanWithoutLiterals | dataimport/src/main/java/io/jmix/dataimport/property/binding/impl/SimplePropertyValueProvider.java:151-158 | without custom literals every string gives a Boolean, true exactly for "true" in any case |
| Coercion.BooleanWithLiterals | dataimport/src/main/java/io/jmix/dataimport/property/binding/impl/SimplePropertyValueProvider.java:151-156 | with a custom literal, the true literal wins, then the false literal, and any other string takes the default value |
| Coercion.UpperCaseHasNoLowerCase | dataimport/src/main/java/io/jmix/dataimport/property/binding/impl/SimplePropertyValueProvider.java:72 | an upper-cased string holds no ASCII lower-case letter |
| Coercion.LowerCaseEnumConstantUnreachable | dataimport/src/main/java/io/jmix/dataimport/property/binding/impl/SimplePropertyValueProvider.java:72-75 | an enum constant with an ASCII lower-case letter in its name is never produced |
| Coercion.EnumPropertyByName | dataimport/src/main/java/io/jmix/dataimport/property/binding/impl/SimplePropertyValueProvider.java:60-83 | an enum property receives the constant named by the upper-cased string, else the default value |
| Coercion.OtherTypesTakeStringsOnly | dataimport/src/main/java/io/jmix/dataimport/property/binding/impl/SimplePropertyValueProvider.java:62-143 | a property of another type keeps a string as it is and takes the default value for any other raw value |
| Entities.PropertyOf | dataimport/src/main/java/io/jmix/dataimport/impl/EntityPopulatorImpl.java:111 | a set property reads its value; an unset property or an unknown instance reads as null |
| Entities.WithProperty | dataimport/src/main/java/io/jmix/dataimport/property/binding/impl/AssociationPropertyBinder.java:99 | the property set reads the new value; every other property, every other instance, the instance's class and its `isNew` flag are unchanged |
| Entities.EntityHeap.constructor | dataimport/src/main/java/io/jmix/dataimport/extractor/entity/impl/EntityExtractorImpl.java:53 | the heap holds exactly the stored instances |
| Entities.EntityHeap.Create | dataimport/src/main/java/io/jmix/dataimport/extractor/entity/impl/EntityExtractorImpl.java:53 | `metadata.create` adds exactly one new instance of the class, under an id not used before, with no values set |
| Entities.EntityHeap.SetValue | dataimport/src/main/java/io/jmix/dataimport/property/binding/impl/AssociationPropertyBinder.java:99 | `EntityValues.setValue` changes one property of one instance and nothing else |
| Binding.FieldValue | dataimport/src/main/java/io/jmix/dataimport/extractor/data/ImportedObject.java:50-53 | a null field name reads as null; otherwise the field's raw value |
| Binding.SimpleValue | dataimport/src/main/java/io/jmix/dataimport/property/binding/impl/SimplePropertyValueProvider.java:42-66 | the value is the coercion by the Java type of the mapped property of the owner class, or the mapping's default value |
| Binding.ContextSource | dataimport/src/main/java/io/jmix/dataimport/property/binding/PropertyBindingContext.java:37-48 | the context's source is the nested object the mapping's field holds, or the given source when the field holds anything else |
| Binding.ContextRawValue | dataimport/src/main/java/io/jmix/dataimport/property/binding/PropertyBindingContext.java:96-102 | the raw value is never null: the field's value when not null, else the source object itself |
| Binding.NestedSourceRawValue | dataimport/src/main/java/io/jmix/dataimport/property/binding/PropertyBindingContext.java:37-102 | for a field holding a nested object, the context reads the nested object's own field of the same name, or the nested object |
| Binding.PropertyBindingContext.constructor | dataimport/src/main/java/io/jmix/dataimport/property/binding/PropertyBindingContext.java:37-48 | keeps the configuration and the mapping, picks the source as above, and leaves the owner class and created associations null |
| Binding.PropertyBindingContext.GetRawValue | dataimport/src/main/java/io/jmix/dataimport/property/binding/PropertyBindingContext.java:96-102 | the context's raw value, never null |
| Binding.PropertyBindingContext.GetAssociationMetaProperty | dataimport/src/main/java/io/jmix/dataimport/property/binding/PropertyBindingContext.java:104-106 | the owner class's property named by the mapping |
| Binding.PropertyBindingContext.SetImportConfiguration | dataimport/src/main/java/io/jmix/dataimport/property/binding/PropertyBindingContext.java:54-57 | only the configuration changes |
| Binding.PropertyBindingContext.SetPropertyMapping | dataimport/src/main/java/io/jmix/dataimport/property/binding/PropertyBindingContext.java:63-66 | only the mapping changes |
| Binding.PropertyBindingContext.SetSourceObject | dataimport/src/main/java/io/jmix/dataimport/property/binding/PropertyBindingContext.java:72-75 | only the source object changes |
| Binding.PropertyBindingContext.SetOwnerEntityMetaClass | dataimport/src/main/java/io/jmix/dataimport/property/binding/PropertyBindingContext.java:81-84 | only the owner class changes |
| Binding.PropertyBindingContext.SetCreatedAssociations | dataimport/src/main/java/io/jmix/dataimport/property/binding/PropertyBindingContext.java:91-94 | only the created associations change |
| Binding.CreateContext | dataimport/src/main/java/io/jmix/dataimport/property/binding/PropertyBindingUtils.java:41-47 | a fresh context for the mapping whose owner class is the class of the entity to populate |
| Binding.PropertyValuesKeys | dataimport/src/main/java/io/jmix/dataimport/property/binding/PropertyBindingUtils.java:59-73 | the lookup values hold a key exactly for the property name of each non-association mapping |
| Binding.PropertyValuesLastWins | dataimport/src/main/java/io/jmix/dataimport/property/binding/PropertyBindingUtils.java:59-73 | under each name sits the coerced raw value of the last non-association mapping of that name |
| Binding.GetPropertyValuesOf | dataimport/src/main/java/io/jmix/dataimport/property/binding/PropertyBindingUtils.java:59-73 | the map the loop fills equals the lookup values of the mappings read from the source |
| Binding.GetPropertyValues | dataimport/src/main/java/io/jmix/dataimport/property/binding/PropertyBindingUtils.java:49-53 | the lookup values of the association's nested mappings, coerced against the association's class, from the context's source |
| Binding.GetPropertyValuesOfItem | dataimport/src/main/java/io/jmix/dataimport/property/binding/PropertyBindingUtils.java:55-57 | the lookup values of the configuration's mappings, coerced against its entity class, from the item |
| Binding.GetPropertyBinder | dataimport/src/main/java/io/jmix/dataimport/property/binding/PropertyBinders.java:42-51 | the custom binder exactly when a custom function is set; otherwise the simple binder exactly for non-associations and the association binder exactly for associations |
| Binding.BinderDependsOnFlagsOnly | dataimport/src/main/java/io/jmix/dataimport/property/binding/PropertyBinders.java:42-51 | two mappings that agree on the custom function's presence and the association flag get the same binder |
| Policies.StrategyFromId | dataimport/src/main/java/io/jmix/dataimport/model/configuration/ImportConfiguration.java:79-81 | a strategy found carries the id asked for; an id other than the two strategies' gives null |
| ModelConfiguration.PropertyMapping.AddSimplePropertyMapping | dataimport/src/main/java/io/jmix/dataimport/model/configuration/mapping/PropertyMapping.java:92-95 | appends exactly one new simple mapping for the name and field at the end of the children; nothing else changes |
| ModelConfiguration.PropertyMapping.AddPropertyMapping | dataimport/src/main/java/io/jmix/dataimport/model/configuration/mapping/PropertyMapping.java:97-100 | appends exactly the given mapping at the end of the children; nothing else changes |
| ModelConfiguration.NewPropertyMapping | dataimport/src/main/java/io/jmix/dataimport/model/configuration/mapping/PropertyMapping.java:39-42 | a simple mapping of the name and field, not an association, with no children, no default, no custom function and no policy |
| ModelConfiguration.NewAssociationMapping | dataimport/src/main/java/io/jmix/dataimport/model/configuration/mapping/PropertyMapping.java:44-49 | an association mapping of the name, field and policy, with no children, no default and no custom function |
| ModelConfiguration.AddSimpleInCallOrder | dataimport/src/main/java/io/jmix/dataimport/model/configuration/mapping/PropertyMapping.java:92-95 | repeated calls leave the children in call order after the existing ones and keep the association flag |
| ModelConfiguration.StrategyRoundTrip | dataimport/src/main/java/io/jmix/dataimport/model/configuration/ImportConfiguration.java:79-86 | a strategy stored through the typed setter reads back as itself, null included |
| ModelConfiguration.UnknownStrategyIdReadsNull | dataimport/src/main/java/io/jmix/dataimport/model/configuration/ImportConfiguration.java:79-81 | an id stored through the string setter that names no strategy reads back as null |
| ModelConfiguration.ImportConfiguration.constructor | dataimport/src/main/java/io/jmix/dataimport/model/configuration/ImportConfiguration.java:26-50 | keeps the entity class and code; the charset starts as UTF-8, the other single-valued fields unset, and the mapping and uniqueness lists empty (null in Java until set) |
| ModelConfiguration.ImportConfiguration.GetTransactionStrategy | dataimport/src/main/java/io/jmix/dataimport/model/configuration/ImportConfiguration.java:79-81 | nothing stored reads as null; a strategy read is the one whose id is stored |
| ModelConfiguration.ImportConfiguration.SetTransactionStrategy | dataimport/src/main/java/io/jmix/dataimport/model/configuration/ImportConfiguration.java:83-86 | stores the strategy's id, or null, and the getter then gives the strategy back |
| ModelConfiguration.ImportConfiguration.SetTransactionStrategyId | dataimport/src/main/java/io/jmix/dataimport/model/configuration/ImportConfiguration.java:124-127 | stores the raw id as given |
| ModelConfiguration.ImportConfiguration.SetName | dataimport/src/main/java/io/jmix/dataimport/model/configuration/ImportConfiguration.java:74-77 | only the name changes |
| ModelConfiguration.ImportConfiguration.SetCode | dataimport/src/main/java/io/jmix/dataimport/model/configuration/ImportConfiguration.java:65-68 | only the code changes |
| ModelConfiguration.ImportConfiguration.SetPropertyMappings | dataimport/src/main/java/io/jmix/dataimport/model/configuration/ImportConfiguration.java:56-59 | only the mappings change |
| ModelConfiguration.ImportConfiguration.SetEntityMetaClass | dataimport/src/main/java/io/jmix/dataimport/model/configuration/ImportConfiguration.java:92-95 | only the entity class changes |
| ModelConfiguration.ImportConfiguration.SetInputDataFormat | dataimport/src/main/java/io/jmix/dataimport/model/configuration/ImportConfiguration.java:101-104 | only the input format changes |
| ModelConfiguration.ImportConfiguration.SetDateFormat | dataimport/src/main/java/io/jmix/dataimport/model/configuration/ImportConfiguration.java:133-136 | only the date format changes |
| ModelConfiguration.ImportConfiguration.SetBooleanTrueValue | dataimport/src/main/java/io/jmix/dataimport/model/configuration/ImportConfiguration.java:142-145 | only the true literal changes |
| ModelConfiguration.ImportConfiguration.SetBooleanFalseValue | dataimport/src/main/java/io/jmix/dataimport/model/configuration/ImportConfiguration.java:151-154 | only the false literal changes |
| ModelConfiguration.ImportConfiguration.SetFileCharset | dataimport/src/main/java/io/jmix/dataimport/model/configuration/ImportConfiguration.java:110-113 | only the charset changes |
| ModelConfiguration.ImportConfiguration.SetUniqueEntityConfigurations | dataimport/src/main/java/io/jmix/dataimport/model/configuration/ImportConfiguration.java:119-122 | only the uniqueness rules change |
| ModelConfiguration.ImportConfiguration.SetPreImportPredicate | dataimport/src/main/java/io/jmix/dataimport/model/configuration/ImportConfiguration.java:160-163 | only the pre-import predicate changes |
| ModelConfiguration.ImportConfiguration.Formats | dataimport/src/main/java/io/jmix/dataimport/model/configuration/ImportConfiguration.java:129-154 | the literals and the date format the value coercion reads are the configuration's own |
| ModelBuilder.SplitPath | dataimport/src/main/java/io/jmix/dataimport/builder/ImportConfigurationBuilder.java:114 | a split path has at least one segment and no segment holds a dot |
| ModelBuilder.SplitPathJoins | dataimport/src/main/java/io/jmix/dataimport/builder/ImportConfigurationBuilder.java:114 | splitting loses nothing: the segments of any path joined with dots give the path back |
| ModelBuilder.SplitJoinRoundTrip | dataimport/src/main/java/io/jmix/dataimport/builder/ImportConfigurationBuilder.java:114-116 | a path "a.b" made of two dot-free names splits into exactly those two names |
| ModelBuilder.SplitWithoutDot | dataimport/src/main/java/io/jmix/dataimport/builder/ImportConfigurationBuilder.java:114-115 | a path without a dot is a single segment, so it adds no association |
| ModelBuilder.MappingTable.Put | dataimport/src/main/java/io/jmix/dataimport/builder/ImportConfigurationBuilder.java:49 | HashMap.put: the key maps to the new mapping; the key order grows by the key only when it is new |
| ModelBuilder.MappingTable.Values | dataimport/src/main/java/io/jmix/dataimport/builder/ImportConfigurationBuilder.java:162 | values(): one mapping per key, in key order |
| ModelBuilder.EmptyTable | dataimport/src/main/java/io/jmix/dataimport/builder/ImportConfigurationBuilder.java:49 | the builder starts with no mappings |
| ModelBuilder.ValuesHaveDistinctNames | dataimport/src/main/java/io/jmix/dataimport/builder/ImportConfigurationBuilder.java:49-128 | whatever is registered, the configuration's mappings carry each property name at most once |
| ModelBuilder.PutReplacesInPlace | dataimport/src/main/java/io/jmix/dataimport/builder/ImportConfigurationBuilder.java:88-91 | registering a name again replaces its mapping at the same position and keeps the rest |
| ModelBuilder.PutNewAppends | dataimport/src/main/java/io/jmix/dataimport/builder/ImportConfigurationBuilder.java:88-91 | registering a new name adds its mapping after the existing ones |
| ModelBuilder.AddAssociation | dataimport/src/main/java/io/jmix/dataimport/builder/ImportConfigurationBuilder.java:111-123 | a path that does not split into exactly two segments leaves the mappings as they were |
| ModelBuilder.FirstAssociationCall | dataimport/src/main/java/io/jmix/dataimport/builder/ImportConfigurationBuilder.java:115-119 | the first call for a base name registers an association with no field, the call's policy and exactly one simple child |
| ModelBuilder.LaterAssociationCall | dataimport/src/main/java/io/jmix/dataimport/builder/ImportConfigurationBuilder.java:115-119 | a later call for a registered base appends one simple child to it, keeps its policy and leaves every other mapping and the order alone |
| ModelBuilder.EntityMetaClassName | dataimport/src/main/java/io/jmix/dataimport/builder/ImportConfigurationBuilder.java:168-177 | the resolved class's name when the Java class is set and resolves, otherwise the entity class string given |
| ModelBuilder.ImportConfigurationBuilder.ForMetaClass | dataimport/src/main/java/io/jmix/dataimport/builder/ImportConfigurationBuilder.java:47-71 | keeps the entity class name and code; no mappings, no uniqueness rules, UTF-8, everything else unset |
| ModelBuilder.ImportConfigurationBuilder.ForClass | dataimport/src/main/java/io/jmix/dataimport/builder/ImportConfigurationBuilder.java:47-76 | keeps the Java class and code; no mappings, no uniqueness rules, UTF-8, everything else unset |
| ModelBuilder.ImportConfigurationBuilder.WithName | dataimport/src/main/java/io/jmix/dataimport/builder/ImportConfigurationBuilder.java:78-81 | only the name changes |
| ModelBuilder.ImportConfigurationBuilder.WithFileCharset | dataimport/src/main/java/io/jmix/dataimport/builder/ImportConfigurationBuilder.java:83-86 | only the charset changes |
| ModelBuilder.ImportConfigurationBuilder.WithTransactionStrategy | dataimport/src/main/java/io/jmix/dataimport/builder/ImportConfigurationBuilder.java:106-109 | only the strategy changes |
| ModelBuilder.ImportConfigurationBuilder.WithDateFormat | dataimport/src/main/java/io/jmix/dataimport/builder/ImportConfigurationBuilder.java:131-134 | only the date format changes |
| ModelBuilder.ImportConfigurationBuilder.WithInputDataFormat | dataimport/src/main/java/io/jmix/dataimport/builder/ImportConfigurationBuilder.java:143-146 | only the input format changes |
| ModelBuilder.ImportConfigurationBuilder.WithPreImportPredicate | dataimport/src/main/java/io/jmix/dataimport/builder/ImportConfigurationBuilder.java:148-151 | only the pre-import predicate changes |
| ModelBuilder.ImportConfigurationBuilder.WithBooleanFormats | dataimport/src/main/java/io/jmix/dataimport/builder/ImportConfigurationBuilder.java:136-140 | both literals are set together |
| ModelBuilder.ImportConfigurationBuilder.AddSimplePropertyMapping | dataimport/src/main/java/io/jmix/dataimport/builder/ImportConfigurationBuilder.java:88-91 | a simple mapping is registered under its property name, replacing an earlier one |
| ModelBuilder.ImportConfigurationBuilder.AddCustomPropertyMapping | dataimport/src/main/java/io/jmix/dataimport/builder/ImportConfigurationBuilder.java:93-99 | a simple mapping with the custom function is registered under its property name |
| ModelBuilder.ImportConfigurationBuilder.AddPropertyMapping | dataimport/src/main/java/io/jmix/dataimport/builder/ImportConfigurationBuilder.java:125-128 | the given mapping is registered under its own property name |
| ModelBuilder.ImportConfigurationBuilder.AddAssociationPropertyMapping | dataimport/src/main/java/io/jmix/dataimport/builder/ImportConfigurationBuilder.java:111-123 | the mappings become those of the association step above |
| ModelBuilder.ImportConfigurationBuilder.AddUniqueEntityConfiguration | dataimport/src/main/java/io/jmix/dataimport/builder/ImportConfigurationBuilder.java:101-104 | appends exactly one rule with the properties and policy, in call order |
| ModelBuilder.ImportConfigurationBuilder.GetEntityMetaClassName | dataimport/src/main/java/io/jmix/dataimport/builder/ImportConfigurationBuilder.java:168-177 | the class name chosen as above |
| ModelBuilder.ImportConfigurationBuilder.Build | dataimport/src/main/java/io/jmix/dataimport/builder/ImportConfigurationBuilder.java:153-166 | a fresh configuration carrying every builder field, the strategy reading back as set, and one mapping per registered property name in registration order, no name twice |
| ModelBuilder.ImportConfigurationBuilder.CopyFormats | dataimport/src/main/java/io/jmix/dataimport/builder/ImportConfigurationBuilder.java:156-160 | the date format, both boolean literals, the name and the strategy are copied onto the new configuration |
| ModelBuilder.ImportConfigurationBuilder.CopyContent | dataimport/src/main/java/io/jmix/dataimport/builder/ImportConfigurationBuilder.java:161-165 | the input format, the table's mappings in key order, the charset, the predicate and the uniqueness rules are copied onto the new configuration |
| Population.AssociationBindingOf | dataimport/src/main/java/io/jmix/dataimport/property/binding/impl/AssociationPropertyBinder.java:64-84 | an embedded property is bound one-to-one; otherwise many-to-one, one-to-one and one-to-many by cardinality, and nothing for any other cardinality |
| Population.LoadEntity | dataimport/src/main/java/io/jmix/dataimport/property/binding/impl/AssociationPropertyBinder.java:132-148 | no lookup for an embedded property or empty lookup values; otherwise the store's answer for the range class and those values |
| Population.NoSimpleNestedMappingNoLookup | dataimport/src/main/java/io/jmix/dataimport/property/binding/impl/AssociationPropertyBinder.java:141-147 | an association whose nested mappings are all associations yields no lookup values and so is never loaded |
| Population.EmptyCollection | dataimport/src/main/java/io/jmix/dataimport/property/association/AssociationCreator.java:88-97 | an empty list for a List property, an empty set for a Set property, none otherwise |
| Population.CollectionAdd | dataimport/src/main/java/io/jmix/dataimport/property/association/AssociationCreator.java:70 | a list always appends; a set appends exactly when the element is absent; the earlier members stay in front |
| Population.CollectionAddAll | dataimport/src/main/java/io/jmix/dataimport/property/association/AssociationCreator.java:73 | the old members stay as a prefix; a list gains exactly the new elements; nothing outside the two lists appears |
| Population.SetAddAllKeepsDistinct | dataimport/src/main/java/io/jmix/dataimport/property/association/AssociationCreator.java:73 | adding to a set keeps it free of repeats and leaves every added element in it |
| Population.PoolOf | dataimport/src/main/java/io/jmix/dataimport/impl/EntityPopulatorImpl.java:72-74 | only an association mapping gets a pool, the one recorded for that mapping if any |
| Population.PopulateAssociation | dataimport/src/main/java/io/jmix/dataimport/impl/EntityPopulatorImpl.java:87-95 | returns the instance given; its nested mappings leave a trace of one binding step per mapping, in order; only the instance, new instances and instances the duplicate finder handed back are written; unless the finder handed the instance back, each property bound last by a custom or simple mapping holds that mapping's value and properties no mapping names are unchanged |
| Population.PopulateProperty | dataimport/src/main/java/io/jmix/dataimport/impl/EntityPopulatorImpl.java:82-85 | the binder chosen for the mapping does its step: the custom binder stores the function's value for the raw value and source object, the simple binder stores the coerced raw value, nothing else changing; the association binder leaves the outcome of its cardinality |
| Population.BindAssociation | dataimport/src/main/java/io/jmix/dataimport/property/binding/impl/AssociationPropertyBinder.java:63-84 | nothing changes for an unsupported cardinality; one-to-one, many-to-one (with the context's pool) and one-to-many leave the outcomes of their binders; only the owner's bound property, new instances and finder answers are written |
| Population.LoadEntityOf | dataimport/src/main/java/io/jmix/dataimport/property/binding/impl/AssociationPropertyBinder.java:132-148 | the lookup on the context's current source object |
| Population.BindOneToOneAssociation | dataimport/src/main/java/io/jmix/dataimport/property/binding/impl/AssociationPropertyBinder.java:86-101 | a stored instance found by the lookup is set; else under CREATE a new instance of the range class, carrying its nested mappings' values unless the finder handed it back, is set; else nothing changes |
| Population.BindManyToOneAssociation | dataimport/src/main/java/io/jmix/dataimport/property/binding/impl/AssociationPropertyBinder.java:116-130 | a stored instance found by the lookup is set; else under CREATE a pool member handed back by the finder or a new instance of the range class carrying its nested values is set; else nothing changes |
| Population.BindOneToManyAssociation | dataimport/src/main/java/io/jmix/dataimport/property/binding/impl/AssociationPropertyBinder.java:103-113 | only CREATE changes anything; the property becomes null exactly when there is no collection and the type is unsupported, else the current or new collection grown by MembersAdded: one member for an object, the distinct new instances for a list, none otherwise |
| Population.CreateManyToOneAssociation | dataimport/src/main/java/io/jmix/dataimport/property/association/AssociationCreator.java:78-81 | the created value is a pool member the finder handed back or a new instance of the range class; it carries its nested mappings' values unless handed back; only it and finder answers were written |
| Population.CreateOneToOneAssociation | dataimport/src/main/java/io/jmix/dataimport/property/association/AssociationCreator.java:83-86 | the created value is always a new instance of the range class that carries its nested mappings' values unless a nested lookup of the finder handed it back; only finder answers were written besides it |
| Population.CreateOneToManyAssociation | dataimport/src/main/java/io/jmix/dataimport/property/association/AssociationCreator.java:56-76 | null, with nothing changed, exactly when there is no current collection and the type is unsupported; otherwise the current kind (or the new empty one) and members equal CollectionAdd of one instance for an object (from the collection or new), CollectionAddAll of the distinct new instances for a list (at most one per object, at least one for a non-empty list), and the base members for any other raw value |
| Population.CreateAssociation | dataimport/src/main/java/io/jmix/dataimport/property/association/AssociationCreator.java:99-119 | the source object is switched first when one is given; a non-empty pool is searched with the nested lookup values and the finder's answer is returned, otherwise a new instance of the range class; the result carries its nested mappings' values unless the finder handed it back; only it and finder answers were written |
| Population.CreateEntityCollection | dataimport/src/main/java/io/jmix/dataimport/property/association/AssociationCreator.java:126-141 | one chosen instance per object; the result is CollectionAddAll(set) of the chosen ones, so no repeats and at most one per object; each is a new instance of the range class with its inverse property (if any) set to the owner; an empty list changes nothing; the context ends on the last object |
| Population.AddCreated | dataimport/src/main/java/io/jmix/dataimport/impl/EntityPopulatorImpl.java:110-128 | only new instances are recorded, each owned by the root or by an earlier record; a non-new, non-collection value gives nothing |
| Population.AddCreatedMembers | dataimport/src/main/java/io/jmix/dataimport/impl/EntityPopulatorImpl.java:113-119 | every new member of the collection is recorded with the owner and the mapping |
| Population.FillCreated | dataimport/src/main/java/io/jmix/dataimport/impl/EntityPopulatorImpl.java:104-108 | the records of the nested association mappings are new instances from a tree walk |
| Population.CreatedAssociations | dataimport/src/main/java/io/jmix/dataimport/impl/EntityPopulatorImpl.java:97-102 | the records are new instances from a tree walk of association mappings; a configuration without associations records nothing |
| Population.PopulateProperties | dataimport/src/main/java/io/jmix/dataimport/impl/EntityPopulatorImpl.java:55-63 | a whole population of the instance by the configuration's mappings against the data item, as PopulateAssociation states; the result's records are CreatedAssociations of the new heap, the new instances reachable from the association mappings |
| Population.PopulatePropertiesWithPools | dataimport/src/main/java/io/jmix/dataimport/impl/EntityPopulatorImpl.java:65-80 | as PopulateProperties, with each association mapping's context carrying that mapping's pool (PoolOf) and no pool for the other mappings |
| Population.CollectionAddAllSnoc | dataimport/src/main/java/io/jmix/dataimport/property/association/AssociationCreator.java:73 | adding one more element with addAll is one more add |
| Population.BindMapping | dataimport/src/main/java/io/jmix/dataimport/impl/EntityPopulatorImpl.java:56-59 | one turn of the populating loop: a context for the mapping (with its pool in the pool overload) and the binding step MappingStep from the old heap to the new |
| Population.BindNext | dataimport/src/main/java/io/jmix/dataimport/impl/EntityPopulatorImpl.java:56-59 | one more mapping bound on top of a bound prefix of the mappings |
| Population.BindMappings | dataimport/src/main/java/io/jmix/dataimport/impl/EntityPopulatorImpl.java:56-60 | the mappings bound one after another in order give a whole population (Populated) of the instance |
| Population.BoundPrefixStep | dataimport/src/main/java/io/jmix/dataimport/impl/EntityPopulatorImpl.java:56-60 | a bound prefix followed by one binding step is a bound prefix one longer, accumulating the finder's answers |
| Population.PopulatedByTrace | dataimport/src/main/java/io/jmix/dataimport/impl/EntityPopulatorImpl.java:56-60 | a complete trace with the frame facts is a whole population, including the final values of the owner |
| Population.AppliedEffects | dataimport/src/main/java/io/jmix/dataimport/impl/EntityPopulatorImpl.java:56-60 | when the finder never hands the owner back, each property takes the value of the last custom or simple mapping that names it, and properties no mapping names are unchanged |
| Population.CarriesStep | dataimport/src/main/java/io/jmix/dataimport/impl/EntityPopulatorImpl.java:56-60 | binding the last mapping on top of the values of the earlier ones leaves the values of every mapping that binds its property last |
| Population.ToOneCreated | dataimport/src/main/java/io/jmix/dataimport/property/binding/impl/AssociationPropertyBinder.java:91-100 | storing a created or pooled instance in the owner's property gives the CREATE outcome of the to-one binders within their frame |
| Population.BindCreatedManyToOne | dataimport/src/main/java/io/jmix/dataimport/property/binding/impl/AssociationPropertyBinder.java:121-129 | the CREATE branch of many-to-one: the instance the creator returns from the pool or new is stored, within the binding frame |
| Population.AddRawMembers | dataimport/src/main/java/io/jmix/dataimport/property/association/AssociationCreator.java:68-75 | an object adds the created instance, an object list adds the collection built from it, anything else adds nothing (MembersAdded); every member is in the heap or was in the base |
| Population.AssociationPopulated | dataimport/src/main/java/io/jmix/dataimport/property/association/AssociationCreator.java:113-118 | populating a found or freshly created instance keeps the heap growing and the instance's class and state, and leaves its nested values unless the finder handed it back |
| Population.ResolvedStep | dataimport/src/main/java/io/jmix/dataimport/property/association/AssociationCreator.java:130-135 | one more object resolved to an already built or new instance keeps the resolved collection's invariant |
| Population.ResolvedMembers | dataimport/src/main/java/io/jmix/dataimport/property/association/AssociationCreator.java:132-134 | adding an instance only when absent is a set add: the list stays free of repeats and no longer than the objects seen |
| Population.AddResolved | dataimport/src/main/java/io/jmix/dataimport/property/association/AssociationCreator.java:130-135 | one object of the list: the context is switched to it, the instance created or found among earlier ones is added when absent, and the resolved invariant holds for one more object |
| Population.ResolveAll | dataimport/src/main/java/io/jmix/dataimport/property/association/AssociationCreator.java:129-135 | the objects resolved in order: one chosen instance per object, the built list is their set-like union of new instances of the range class, and an empty list changes nothing |
| Population.PointInverseAt | dataimport/src/main/java/io/jmix/dataimport/property/association/AssociationCreator.java:136-139 | each built instance has its inverse property set to the owner; no other instance changes and no instance changes class or state |
| Population.AppliedSnoc | dataimport/src/main/java/io/jmix/dataimport/impl/EntityPopulatorImpl.java:56-59 | a trace of binding steps extends by the step of the next mapping |
| EntityExtractor.FirstAgreeing | dataimport/src/main/java/io/jmix/dataimport/extractor/entity/impl/EntityExtractorImpl.java:101-103 | the first result from a position on whose instance agrees with every lookup value; all skipped ones disagree; none only when all disagree |
| EntityExtractor.GetExistingEntity | dataimport/src/main/java/io/jmix/dataimport/extractor/entity/impl/EntityExtractorImpl.java:96-106 | no results give no match; a match is a valid result position |
| EntityExtractor.ExistingEntityIsFirstAgreeing | dataimport/src/main/java/io/jmix/dataimport/extractor/entity/impl/EntityExtractorImpl.java:96-115 | no match exactly when every result disagrees with some lookup value; a match agrees and every earlier result disagrees |
| EntityExtractor.NoLookupValuesMergeIntoFirst | dataimport/src/main/java/io/jmix/dataimport/extractor/entity/impl/EntityExtractorImpl.java:108-115 | with no lookup values the first result always matches |
| EntityExtractor.AddToPool | dataimport/src/main/java/io/jmix/dataimport/extractor/entity/impl/EntityExtractorImpl.java:85-91 | the record's object joins its mapping's pool; the pool keeps its old members in front and the other pools are untouched |
| EntityExtractor.FillPools | dataimport/src/main/java/io/jmix/dataimport/extractor/entity/impl/EntityExtractorImpl.java:81-94 | no pool is dropped |
| EntityExtractor.FillPoolsCollects | dataimport/src/main/java/io/jmix/dataimport/extractor/entity/impl/EntityExtractorImpl.java:81-94 | every recorded object ends up in its mapping's pool and every pool keeps its old members |
| EntityExtractor.FillPoolsOnlyRecorded | dataimport/src/main/java/io/jmix/dataimport/extractor/entity/impl/EntityExtractorImpl.java:84-92 | an instance newly in a pool was recorded for that mapping |
| EntityExtractor.FillPoolsDistinct | dataimport/src/main/java/io/jmix/dataimport/extractor/entity/impl/EntityExtractorImpl.java:88-90 | an object already pooled is not added again, so the pools stay free of repeats |
| EntityExtractor.PoolsStayNew | dataimport/src/main/java/io/jmix/dataimport/extractor/entity/impl/EntityExtractorImpl.java:81-94 | the pools hold only new instances when the records name new instances |
| EntityExtractor.FillCreatedAssociations | dataimport/src/main/java/io/jmix/dataimport/extractor/entity/impl/EntityExtractorImpl.java:81-94 | the loop over the records produces the pools of the fold above |
| EntityExtractor.ExtractOne | dataimport/src/main/java/io/jmix/dataimport/extractor/entity/impl/EntityExtractorImpl.java:51-56 | a new instance of the configured class, not in the old heap, paired with the item; it is then wholly populated from the item without pools (as PopulateAssociation states, from the heap with that blank instance added) |
| EntityExtractor.FindExisting | dataimport/src/main/java/io/jmix/dataimport/extractor/entity/impl/EntityExtractorImpl.java:96-106 | the first agreeing result for the item's lookup values; the first result when the configuration has no simple mapping |
| EntityExtractor.ExtractItem | dataimport/src/main/java/io/jmix/dataimport/extractor/entity/impl/EntityExtractorImpl.java:63-76 | the merge step against the heap before the item: merged into the first agreeing result, which then records the item, or appended with an instance not in that heap, the target being that result's instance; the target is then wholly populated from the item with the pools (the population trace from the heap with the target placed); the new pools are the old ones filled with the instances created through the target's associations; results grow by at most one and stay distinct new instances of the configured class, the pools stay distinct new instances |
| EntityExtractor.PopulateAndPool | dataimport/src/main/java/io/jmix/dataimport/extractor/entity/impl/EntityExtractorImpl.java:67-75 | the target is wholly populated from the item with the pools, and the new pools are FillPools of the old with the records of the populated instance, still distinct and new |
| EntityExtractor.FreshAfterGrowth | dataimport/src/main/java/io/jmix/dataimport/extractor/entity/impl/EntityExtractorImpl.java:59-79 | growing the heap keeps the results' instances new and of the configured class |
| EntityExtractor.ExtractAll | dataimport/src/main/java/io/jmix/dataimport/extractor/entity/impl/EntityExtractorImpl.java:58-79 | a trace of one extraction step per item, in order, starting from no results and no pools: each item merged against the heap of its turn, its target populated from it with that turn's pools, the pools then filled with the instances its associations created; at most one result per item, at least one for a non-empty input, each a distinct new instance of the configured class recording an input item, the last item recorded somewhere, and at most one result when no mapping gives lookup values |
| EntityExtractor.FillPoolsHas | dataimport/src/main/java/io/jmix/dataimport/extractor/entity/impl/EntityExtractorImpl.java:81-94 | each record's mapping has a pool that holds the record's object |
| EntityExtractor.FillPoolsGrows | dataimport/src/main/java/io/jmix/dataimport/extractor/entity/impl/EntityExtractorImpl.java:81-94 | every existing pool stays and keeps its members as a prefix |
| EntityExtractor.PlaceItem | dataimport/src/main/java/io/jmix/dataimport/extractor/entity/impl/EntityExtractorImpl.java:64-73 | without an agreeing result a new instance is created and appended with the item; with one, its instance is reused and its item replaced; every result stays a distinct new instance of the configured class |
| EntityExtractor.MergeItem | dataimport/src/main/java/io/jmix/dataimport/extractor/entity/impl/EntityExtractorImpl.java:64-73 | the merge step: the first agreeing result is reused and records the item, else a blank new instance of the configured class is appended with the item; the target is that result's instance or the appended one; the heap gains at most that instance |
| EntityExtractor.MergeStepShape | dataimport/src/main/java/io/jmix/dataimport/extractor/entity/impl/EntityExtractorImpl.java:64-73 | a merge step grows the results by at most one and each result records the item or keeps the item it recorded |
| EntityExtractor.ExtractNext | dataimport/src/main/java/io/jmix/dataimport/extractor/entity/impl/EntityExtractorImpl.java:63-76 | one turn of the item loop: the item's extraction step (merge, population, pools filled) appended to the heap, result, pool and population traces, and the loop's facts carried to the next item |
| EntityExtractor.ExtractingSnoc | dataimport/src/main/java/io/jmix/dataimport/extractor/entity/impl/EntityExtractorImpl.java:63-76 | a merge step that records the item, within a growing heap, extends the loop's facts by one item |
| EntityExtractor.ExtractedSnoc | dataimport/src/main/java/io/jmix/dataimport/extractor/entity/impl/EntityExtractorImpl.java:63-76 | the trace of merge steps extends by the step of the next item |
| ConfigMapping.NewReferenceMapping | dataimport/src/main/java/io/jmix/dataimport/configuration/mapping/ReferencePropertyMapping.java:38-43 | a single-field reference with the given entity property, data field and lookup, policy IGNORE_IF_MISSING |
| ConfigMapping.NewReferenceMappingWithPolicy | dataimport/src/main/java/io/jmix/dataimport/configuration/mapping/ReferencePropertyMapping.java:45-50 | a single-field reference whose arguments come as entity property, lookup, data field, policy |
| ConfigMapping.ConstructorArgumentOrders | dataimport/src/main/java/io/jmix/dataimport/configuration/mapping/ReferencePropertyMapping.java:38-50 | the two constructors agree only with the lookup and data field arguments swapped; in the same order they differ whenever the two names differ |
| ConfigMapping.BuildReference | dataimport/src/main/java/io/jmix/dataimport/configuration/mapping/ReferencePropertyMapping.java:132-148 | success exactly when entity property, lookup and data field are all set; otherwise the message of the first missing one; a success carries the builder's fields |
| ConfigMapping.ReferencePropertyMappingBuilder.ByEntityPropertyName | dataimport/src/main/java/io/jmix/dataimport/configuration/mapping/ReferencePropertyMapping.java:96-112 | only the entity property is set; the policy starts as IGNORE_IF_MISSING |
| ConfigMapping.ReferencePropertyMappingBuilder.constructor | dataimport/src/main/java/io/jmix/dataimport/configuration/mapping/ReferencePropertyMapping.java:100-115 | nothing is set but the default policy |
| ConfigMapping.ReferencePropertyMappingBuilder.WithLookupPropertyName | dataimport/src/main/java/io/jmix/dataimport/configuration/mapping/ReferencePropertyMapping.java:117-120 | only the lookup property changes |
| ConfigMapping.ReferencePropertyMappingBuilder.WithReferenceImportPolicy | dataimport/src/main/java/io/jmix/dataimport/configuration/mapping/ReferencePropertyMapping.java:122-125 | only the policy changes |
| ConfigMapping.ReferencePropertyMappingBuilder.WithDataFieldName | dataimport/src/main/java/io/jmix/dataimport/configuration/mapping/ReferencePropertyMapping.java:127-130 | only the data field changes |
| ConfigMapping.ReferencePropertyMappingBuilder.Build | dataimport/src/main/java/io/jmix/dataimport/configuration/mapping/ReferencePropertyMapping.java:132-135 | the validated build on the builder's current fields |
| ConfigMapping.BuilderDefaultsToIgnore | dataimport/src/main/java/io/jmix/dataimport/configuration/mapping/ReferencePropertyMapping.java:104-107 | a builder never given a policy builds the same mapping as the three-argument constructor |
| ConfigMapping.EntityPropertyNames | dataimport/src/main/java/io/jmix/dataimport/configuration/mapping/ReferenceMultiFieldPropertyMapping.java:176 | the entity property names of the nested mappings, one per mapping, in order |
| ConfigMapping.BuildMultiField | dataimport/src/main/java/io/jmix/dataimport/configuration/mapping/ReferenceMultiFieldPropertyMapping.java:174-189 | success exactly when a policy is set and it is CREATE or the effective lookup list is non-empty; the two messages otherwise; a success carries the nested mappings and the effective lookups |
| ConfigMapping.LookupByAllOverridesExplicit | dataimport/src/main/java/io/jmix/dataimport/configuration/mapping/ReferenceMultiFieldPropertyMapping.java:175-177 | with lookup-by-all set, the explicit lookup names make no difference |
| ConfigMapping.CreateNeedsNoLookup | dataimport/src/main/java/io/jmix/dataimport/configuration/mapping/ReferenceMultiFieldPropertyMapping.java:186-188 | without lookup names the build succeeds exactly for CREATE |
| ConfigMapping.ReferenceMultiFieldBuilder.constructor | dataimport/src/main/java/io/jmix/dataimport/configuration/mapping/ReferenceMultiFieldPropertyMapping.java:101-112 | entity property and policy as given, no nested mappings, no lookups, no data field, lookup-by-all off |
| ConfigMapping.ReferenceMultiFieldBuilder.AddSimplePropertyMapping | dataimport/src/main/java/io/jmix/dataimport/configuration/mapping/ReferenceMultiFieldPropertyMapping.java:114-117 | one simple mapping appended |
| ConfigMapping.ReferenceMultiFieldBuilder.AddCustomPropertyMapping | dataimport/src/main/java/io/jmix/dataimport/configuration/mapping/ReferenceMultiFieldPropertyMapping.java:119-124 | one custom mapping appended with its data field and function |
| ConfigMapping.ReferenceMultiFieldBuilder.AddCustomPropertyMappingWithoutField | dataimport/src/main/java/io/jmix/dataimport/configuration/mapping/ReferenceMultiFieldPropertyMapping.java:126-131 | one custom mapping appended with no data field |
| ConfigMapping.ReferenceMultiFieldBuilder.AddReferencePropertyMapping | dataimport/src/main/java/io/jmix/dataimport/configuration/mapping/ReferenceMultiFieldPropertyMapping.java:133-142 | one single-field reference appended with the given fields, not validated |
| ConfigMapping.ReferenceMultiFieldBuilder.AddPropertyMapping | dataimport/src/main/java/io/jmix/dataimport/configuration/mapping/ReferenceMultiFieldPropertyMapping.java:144-147 | the given mapping appended |
| ConfigMapping.ReferenceMultiFieldBuilder.WithLookupPropertyNames | dataimport/src/main/java/io/jmix/dataimport/configuration/mapping/ReferenceMultiFieldPropertyMapping.java:149-167 | the lookup list is replaced |
| ConfigMapping.ReferenceMultiFieldBuilder.LookupByAllSimpleProperties | dataimport/src/main/java/io/jmix/dataimport/configuration/mapping/ReferenceMultiFieldPropertyMapping.java:159-162 | lookup-by-all is switched on |
| ConfigMapping.ReferenceMultiFieldBuilder.WithDataFieldName | dataimport/src/main/java/io/jmix/dataimport/configuration/mapping/ReferenceMultiFieldPropertyMapping.java:169-172 | only the data field changes |
| ConfigMapping.ReferenceMultiFieldBuilder.Build | dataimport/src/main/java/io/jmix/dataimport/configuration/mapping/ReferenceMultiFieldPropertyMapping.java:174-180 | the builder's lookup list becomes the effective one even when validation then refuses; the result is the validated build |
| Configuration.ImportConfiguration.Formats | dataimport/src/main/java/io/jmix/dataimport/configuration/ImportConfiguration.java:62-64 | the boolean literals and date format of the configuration |
| Configuration.ImportConfigurationBuilder.constructor | dataimport/src/main/java/io/jmix/dataimport/configuration/ImportConfigurationBuilder.java:50-83 | entity class and code as given; no mappings, no uniqueness rules, UTF-8, everything else unset |
| Configuration.ImportConfigurationBuilder.WithName | dataimport/src/main/java/io/jmix/dataimport/configuration/ImportConfigurationBuilder.java:91-94 | only the name changes |
| Configuration.ImportConfigurationBuilder.WithFileCharset | dataimport/src/main/java/io/jmix/dataimport/configuration/ImportConfigurationBuilder.java:102-105 | only the charset changes |
| Configuration.ImportConfigurationBuilder.WithTransactionStrategy | dataimport/src/main/java/io/jmix/dataimport/configuration/ImportConfigurationBuilder.java:144-147 | only the strategy changes |
| Configuration.ImportConfigurationBuilder.WithDateFormat | dataimport/src/main/java/io/jmix/dataimport/configuration/ImportConfigurationBuilder.java:198-201 | only the date format changes |
| Configuration.ImportConfigurationBuilder.WithInputDataFormat | dataimport/src/main/java/io/jmix/dataimport/configuration/ImportConfigurationBuilder.java:225-228 | only the input format changes |
| Configuration.ImportConfigurationBuilder.WithPreImportPredicate | dataimport/src/main/java/io/jmix/dataimport/configuration/ImportConfigurationBuilder.java:230-233 | only the predicate changes |
| Configuration.ImportConfigurationBuilder.WithBooleanFormats | dataimport/src/main/java/io/jmix/dataimport/configuration/ImportConfigurationBuilder.java:210-214 | both literals set together |
| Configuration.ImportConfigurationBuilder.AddSimplePropertyMapping | dataimport/src/main/java/io/jmix/dataimport/configuration/ImportConfigurationBuilder.java:114-117 | one simple mapping appended in call order; an equal earlier one stays |
| Configuration.ImportConfigurationBuilder.AddCustomPropertyMapping | dataimport/src/main/java/io/jmix/dataimport/configuration/ImportConfigurationBuilder.java:127-132 | one custom mapping appended |
| Configuration.ImportConfigurationBuilder.AddPropertyMapping | dataimport/src/main/java/io/jmix/dataimport/configuration/ImportConfigurationBuilder.java:187-190 | the given mapping appended |
| Configuration.ImportConfigurationBuilder.AddReferencePropertyMapping | dataimport/src/main/java/io/jmix/dataimport/configuration/ImportConfigurationBuilder.java:160-170 | a refused reference leaves the list unchanged and returns the builder's message; a valid one is appended |
| Configuration.ImportConfigurationBuilder.AddUniqueEntityConfiguration | dataimport/src/main/java/io/jmix/dataimport/configuration/ImportConfigurationBuilder.java:134-142 | one uniqueness rule appended, in call order |
| Configuration.ImportConfigurationBuilder.Build | dataimport/src/main/java/io/jmix/dataimport/configuration/ImportConfigurationBuilder.java:235-247 | a configuration carrying every builder field |
| Configuration.AddedReferenceCarriesArguments | dataimport/src/main/java/io/jmix/dataimport/configuration/ImportConfigurationBuilder.java:160-168 | the appended reference has the caller's entity property, lookup, data field and policy |
| Configuration.ReferenceWithoutLookupRefused | dataimport/src/main/java/io/jmix/dataimport/configuration/ImportConfigurationBuilder.java:160-168 | a reference without a lookup property is refused with the lookup message |
| Configuration.BuildThroughBuilder | dataimport/src/main/java/io/jmix/dataimport/configuration/ImportConfigurationBuilder.java:164-168 | the builder chain yields the reference mapping with the given fields, or the first validation message |
| ConfigValidation.Validate | dataimport/src/main/java/io/jmix/dataimport/configuration/ImportConfigurationValidator.java:39-42 | the configuration passes exactly when every multi-field reference in its mapping tree that targets an embedded property uses CREATE |
| ConfigValidation.ValidationMeansValid | dataimport/src/main/java/io/jmix/dataimport/configuration/ImportConfigurationValidator.java:44-50 | the ordered walk over a mapping list succeeds exactly when every mapping in the tree obeys the rule |
| ConfigValidation.MappingValidationMeansValid | dataimport/src/main/java/io/jmix/dataimport/configuration/ImportConfigurationValidator.java:52-59 | one mapping passes exactly when it obeys the rule and so do all its nested mappings against the referenced class |
| ConfigValidation.FailureNamesOffender | dataimport/src/main/java/io/jmix/dataimport/configuration/ImportConfigurationValidator.java:54-57 | a failure carries the incorrect-policy message naming a multi-field mapping without CREATE |
| ConfigValidation.OnlyMultiFieldChecked | dataimport/src/main/java/io/jmix/dataimport/configuration/ImportConfigurationValidator.java:46-48 | simple, custom and single-field reference mappings always pass |
| ConfigValidation.NonEmbeddedAnyPolicy | dataimport/src/main/java/io/jmix/dataimport/configuration/ImportConfigurationValidator.java:52-59 | a multi-field reference whose property is not embedded passes on any policy; the outcome is that of its nested mappings |
| ReferencePopulation.RawValueSource | dataimport/src/main/java/io/jmix/dataimport/property/populator/impl/PropertyValueProvider.java:102-111 | the nested object under the mapping's data field when that value is an object; the given source when there is no data field or the value is anything else |
| ReferencePopulation.PoolFor | dataimport/src/main/java/io/jmix/dataimport/property/populator/impl/PropertyValueProvider.java:113-119 | no pool without a pool map; with one, the map's entry for the mapping exactly when it has one |
| ReferencePopulation.SimpleValueOf | dataimport/src/main/java/io/jmix/dataimport/property/populator/impl/PropertyValueProvider.java:46-59 | custom mappings ask the custom provider, simple mappings the simple provider, reference mappings get null |
| ReferencePopulation.ReferenceValueOf | dataimport/src/main/java/io/jmix/dataimport/property/populator/impl/PropertyValueProvider.java:61-90 | non-references get null; a single-field reference is one entity from the given source with its pool; a multi-field reference reads its nested source and is a collection for a to-many property, one entity with its pool otherwise |
| ReferencePopulation.ToManyReferenceIgnoresPools | dataimport/src/main/java/io/jmix/dataimport/property/populator/impl/PropertyValueProvider.java:84-89 | a to-many multi-field reference gets the same value whatever pools are given |
| ReferencePopulation.NoPoolMapNoPool | dataimport/src/main/java/io/jmix/dataimport/property/populator/impl/PropertyValueProvider.java:113-119 | without a pool map every reference resolves without a pool |
| ReferencePopulation.MappingValuesKeys | dataimport/src/main/java/io/jmix/dataimport/property/populator/PropertyMappingUtils.java:72-93 | the lookup keys are exactly the entity property names of the non-reference mappings |
| ReferencePopulation.GetMappingValues | dataimport/src/main/java/io/jmix/dataimport/property/populator/PropertyMappingUtils.java:72-93 | the stream over the mappings computes the lookup values above, a later mapping of the same name replacing an earlier one |
| ReferencePopulation.LookupMappings | dataimport/src/main/java/io/jmix/dataimport/property/populator/PropertyMappingUtils.java:54-58 | the chosen nested mappings are exactly those whose property is a lookup name |
| ReferencePopulation.MultiFieldLookupKeys | dataimport/src/main/java/io/jmix/dataimport/property/populator/PropertyMappingUtils.java:50-60 | a multi-field reference is looked up by a name exactly when it is a lookup name carried by a nested non-reference mapping |
| ReferencePopulation.SingleFieldLookupKeys | dataimport/src/main/java/io/jmix/dataimport/property/populator/PropertyMappingUtils.java:61-65 | a single-field reference is looked up by its lookup property alone; other mappings by nothing |
| ReferencePopulation.GetItemValues | dataimport/src/main/java/io/jmix/dataimport/property/populator/PropertyMappingUtils.java:68-70 | an item's lookup values are those of the configuration's mappings against its entity class |
| ReferencePopulation.AddCreatedReference | dataimport/src/main/java/io/jmix/dataimport/property/populator/impl/EntityPropertiesPopulatorImpl.java:101-119 | only new instances from multi-field mappings are recorded; a new single value comes first, followed by what is reached through it; a null value records nothing |
| ReferencePopulation.AddCreatedReferenceMembers | dataimport/src/main/java/io/jmix/dataimport/property/populator/impl/EntityPropertiesPopulatorImpl.java:104-110 | every new member of the collection is recorded with the owner and the mapping |
| ReferencePopulation.FillCreatedReferences | dataimport/src/main/java/io/jmix/dataimport/property/populator/impl/EntityPropertiesPopulatorImpl.java:94-99 | the records of nested multi-field mappings are new instances |
| ReferencePopulation.CreatedReferences | dataimport/src/main/java/io/jmix/dataimport/property/populator/impl/EntityPropertiesPopulatorImpl.java:87-92 | the records are new instances from multi-field mappings; a configuration without multi-field mappings records nothing |
| ReferencePopulation.PopulateProperty | dataimport/src/main/java/io/jmix/dataimport/property/populator/impl/EntityPropertiesPopulatorImpl.java:65-76 | the property is set to the reference value for a reference mapping and to the simple value otherwise, computed on the heap before the assignment |
| ReferencePopulation.PopulateAll | dataimport/src/main/java/io/jmix/dataimport/property/populator/impl/EntityPropertiesPopulatorImpl.java:59-60 | a trace with one state per mapping, each the previous with the mapping's property assigned the value computed on that state; the last mapping of each name decides its property (a non-reference one its simple value); properties no mapping names, the instance's class and state and every other instance are unchanged |
| ReferencePopulation.PopulateProperties | dataimport/src/main/java/io/jmix/dataimport/property/populator/impl/EntityPropertiesPopulatorImpl.java:50-63 | the configuration's mappings applied in order against the item as PopulateAll states, with the pool map given; the result records CreatedReferences of the new heap, the new instances reached through multi-field references |
| ReferencePopulation.AppliedInOrderHeap | dataimport/src/main/java/io/jmix/dataimport/property/populator/impl/EntityPropertiesPopulatorImpl.java:50-63 | a heap trace of the mappings applied in order ends in the heap AppliedHeap computes from its first heap, so populating is determined by the heap, the entity, the mappings and the item |
| ReferencePopulation.PopulateReference | dataimport/src/main/java/io/jmix/dataimport/property/populator/impl/EntityPropertiesPopulatorImpl.java:78-85 | returns the instance given; its nested mappings applied in order without pools, as PopulateAll states; only the properties they name change and each last non-reference nested mapping leaves its simple value |
| ReferencePopulation.PopulateReferenceEntity | dataimport/src/main/java/io/jmix/dataimport/property/populator/impl/ReferenceCreator.java:97-124 | the source is switched first when one is given; a non-empty pool is searched with the lookup values and the finder's answer is used, otherwise a new instance of the reference's class; a single-field reference then has its lookup property set to the simple value, a multi-field one carries its nested simple values; only that instance is written, and only in properties the mapping names |
| ReferencePopulation.CreateEntity | dataimport/src/main/java/io/jmix/dataimport/property/populator/impl/ReferenceCreator.java:63-72 | a value exactly for many-to-one and one-to-one; one-to-one always gives a new instance; a pre-existing many-to-one value comes from the pool; no value leaves the heap unchanged |
| ReferencePopulation.CreateEntityCollection | dataimport/src/main/java/io/jmix/dataimport/property/populator/impl/ReferenceCreator.java:131-146 | one chosen instance per object; the result is the set-like union of the chosen ones, so no repeats and at most one per object, each a new instance of the reference's class; each has its inverse property (if any) set to the owner; an empty list changes nothing |
| ReferencePopulation.CreateOneToManyCollection | dataimport/src/main/java/io/jmix/dataimport/property/populator/impl/ReferenceCreator.java:74-95 | null, with nothing changed, exactly when there is no current collection and the type is unsupported; otherwise the current kind (or the new empty one) and members equal CollectionAdd of one instance (from the collection or new) for a null or object raw value, CollectionAddAll of the resolved new instances for a list, and the base members for anything else |
| ReferencePopulation.AppliedSnoc | dataimport/src/main/java/io/jmix/dataimport/property/populator/impl/EntityPropertiesPopulatorImpl.java:59-60 | a trace extends by assigning the next mapping's value computed on the last state |
| ReferencePopulation.LastMappingWins | dataimport/src/main/java/io/jmix/dataimport/property/populator/impl/EntityPropertiesPopulatorImpl.java:59-60 | after the mappings, the property of the last mapping of each name holds what that mapping assigned, null included, and a non-reference one its simple value |
| ReferencePopulation.AppliedFrame | dataimport/src/main/java/io/jmix/dataimport/property/populator/impl/EntityPropertiesPopulatorImpl.java:59-60 | applying mappings keeps every instance, the populated instance's class and state, every other instance, and every property no mapping names |
| ReferencePopulation.PlaceReferenceEntity | dataimport/src/main/java/io/jmix/dataimport/property/populator/impl/ReferenceCreator.java:104-112 | with a non-empty pool the finder's answer is used, a pool member, with the heap unchanged; otherwise a blank new instance of the reference's class is added and nothing else changes |
| ReferencePopulation.PopulatePlaced | dataimport/src/main/java/io/jmix/dataimport/property/populator/impl/ReferenceCreator.java:114-123 | a multi-field reference populates the instance with its nested mappings, a single-field one sets the lookup property to the simple value, any other mapping changes nothing; only that instance and only properties the mapping names are written |
| ReferencePopulation.ResolveObjects | dataimport/src/main/java/io/jmix/dataimport/property/populator/impl/ReferenceCreator.java:134-140 | the objects resolved in order against the instances built so far: one chosen instance per object, whose set-like union of new instances of the reference's class is the result; an empty list changes nothing |
| ExecutorSpec.NodeError | dataimport/src/main/java/io/jmix/dataimport/DataImportExecutor.java:364-379 | only a multi-field reference mapping can offend, and it passes exactly when it has a reference policy that is CREATE or comes with lookup properties |
| ExecutorSpec.FlattenOne | dataimport/src/main/java/io/jmix/dataimport/DataImportExecutor.java:364-379 | a mapping is visited before the mappings nested inside it |
| ExecutorSpec.FirstNodeErrorConcat | dataimport/src/main/java/io/jmix/dataimport/DataImportExecutor.java:364-379 | the first offence in two lists in turn is the first list's, or the second's when the first has none |
| ExecutorSpec.FirstNodeErrorNone | dataimport/src/main/java/io/jmix/dataimport/DataImportExecutor.java:364-379 | there is no offence exactly when every visited mapping passes |
| ExecutorSpec.ValidationIsFirstNodeError | dataimport/src/main/java/io/jmix/dataimport/DataImportExecutor.java:364-379 | `validatePropertyMappings` reports the message of the first offending mapping in a depth-first, parent-before-children walk of the whole mapping tree |
| ExecutorSpec.MappingValidationIsFirstNodeError | dataimport/src/main/java/io/jmix/dataimport/DataImportExecutor.java:364-379 | checking one mapping reports the first offence in its own subtree, itself first |
| ExecutorSpec.ValidIffNoOffender | dataimport/src/main/java/io/jmix/dataimport/DataImportExecutor.java:356-379 | the configuration is accepted exactly when no mapping anywhere in its tree offends |
| ExecutorSpec.BuilderAndExecutorAgree | dataimport/src/main/java/io/jmix/dataimport/configuration/mapping/ReferenceMultiFieldPropertyMapping.java:182-189 | the multi-field builder refuses a mapping exactly when the executor would, with the same message |
| ExecutorSpec.FindDuplicate | dataimport/src/main/java/io/jmix/dataimport/DataImportExecutor.java:175-192 | no duplicate exactly when no uniqueness rule from the start loads a stored entity; otherwise the first rule that loads one, with that entity |
| ExecutorSpec.ErrorFor | dataimport/src/main/java/io/jmix/dataimport/DataImportExecutor.java:230-235 | the error record carries the extraction result's entity and data item, the message and the error type |
| ExecutorSpec.DuplicateScreen | dataimport/src/main/java/io/jmix/dataimport/DataImportExecutor.java:172-195 | no duplicate lets the result through unchanged; the first duplicate decides by its rule's policy: UPDATE goes on with the stored entity, ABORT stops the import, anything else rejects with one UNIQUE_VIOLATION record carrying the SKIP message |
| ExecutorSpec.PredicateScreen | dataimport/src/main/java/io/jmix/dataimport/DataImportExecutor.java:197-217 | the result passes exactly when there is no predicate or it answers true; a rejection ends with the VALIDATION record; a predicate that throws records the PRE_COMMIT_PREDICATE failure with its message and then the VALIDATION record |
| ExecutorSpec.NoChecksAcceptAll | dataimport/src/main/java/io/jmix/dataimport/DataImportExecutor.java:164-195 | without uniqueness rules and predicate every result passes unchanged and nothing is recorded |
| ExecutorSpec.AcceptedPassedChecks | dataimport/src/main/java/io/jmix/dataimport/DataImportExecutor.java:164-217 | a result let through recorded nothing, keeps its data item, satisfied the predicate if there is one, and is either the extracted entity (no duplicate) or the stored duplicate under UPDATE |
| ExecutorSpec.SkipRecordsOneViolation | dataimport/src/main/java/io/jmix/dataimport/DataImportExecutor.java:185-190 | a duplicate under SKIP or no policy records exactly one UNIQUE_VIOLATION and the predicate is never consulted |
| ExecutorSpec.SameLoadSameDuplicate | dataimport/src/main/java/io/jmix/dataimport/DataImportExecutor.java:175-177 | the duplicate search depends on the loading of duplicates alone |
| ExecutorSpec.ScreenFailures | dataimport/src/main/java/io/jmix/dataimport/DataImportExecutor.java:164-217 | the checks record at most two failures, and none exactly when the result is imported or the import aborts |
| ExecutorSpec.ScreenFailureKinds | dataimport/src/main/java/io/jmix/dataimport/DataImportExecutor.java:164-217 | the checks never record a DATA_BINDING or PERSISTENCE failure, the kinds that always mark the import failed |
| ExecutorSpec.StoreAll | dataimport/src/main/java/io/jmix/dataimport/DataImportExecutor.java:281-292 | storing succeeds exactly when every entity is stored, then with one id per entity in order; otherwise it fails with the outcome of some entity that was not stored |
| ExecutorSpec.ImportEntitiesOutcome | dataimport/src/main/java/io/jmix/dataimport/DataImportExecutor.java:219-228 | all stored sets the imported ids; a validation failure resets the result with its message and the transaction-abort notice; a persistence failure with "Error while executing import: " before it; any other failure escapes leaving the result alone; failures and code never change |
| ExecutorSpec.ImportEntityOutcome | dataimport/src/main/java/io/jmix/dataimport/DataImportExecutor.java:257-279 | a stored entity adds its id unless already listed; a validation failure marks the import failed and records a VALIDATION error with the exception text; a persistence failure a PERSISTENCE error with "Error while importing entity: "; any other failure escapes |
| ExecutorSpec.ExtractionError | dataimport/src/main/java/io/jmix/dataimport/DataImportExecutor.java:141-144 | an extraction failure is recorded with the data item, no entity, type DATA_BINDING and "Error during entity extraction: " before the message |
| ExecutorSpec.ItemStepKeeps | dataimport/src/main/java/io/jmix/dataimport/DataImportExecutor.java:134-153 | one data item only adds imported ids (keeping them distinct) and failures, marks the import failed only by recording a failure, keeps count, code and message, and an abort escapes nothing and leaves the success flag alone |
| ExecutorSpec.EntitiesOf | dataimport/src/main/java/io/jmix/dataimport/DataImportExecutor.java:116-119 | the entities of the extraction results, one per result in order |
| Executor.StoreAllFirstFailure | dataimport/src/main/java/io/jmix/dataimport/DataImportExecutor.java:281-292 | storing fails with the outcome of the first entity that is not stored |
| Executor.DataImportExecutor.constructor | dataimport/src/main/java/io/jmix/dataimport/DataImportExecutor.java:86-89 | the executor holds the given configuration and data and a fresh, initial import result |
| Executor.DataImportExecutor.ResetImportResult | dataimport/src/main/java/io/jmix/dataimport/DataImportExecutor.java:237-242 | the result becomes failed, with no entities processed and the given message, everything else unchanged |
| Executor.DataImportExecutor.CheckEntityDuplicates | dataimport/src/main/java/io/jmix/dataimport/DataImportExecutor.java:172-195 | the verdict and the records added are those of the duplicate screen; under UPDATE the stored duplicate is re-populated from the result's data item by every mapping in order (CheckedHeap), changing only its mapped properties and carrying each simple mapping's value; otherwise the heap is unchanged |
| Executor.DataImportExecutor.ExecutePreCommitPredicateIfNecessary | dataimport/src/main/java/io/jmix/dataimport/DataImportExecutor.java:206-217 | passes exactly when there is no predicate or it answers true; a predicate that throws adds exactly one PRE_COMMIT_PREDICATE record with its message |
| Executor.DataImportExecutor.CheckPreImportPredicate | dataimport/src/main/java/io/jmix/dataimport/DataImportExecutor.java:197-204 | the verdict and the records added are those of the predicate screen |
| Executor.DataImportExecutor.CheckExtractedEntity | dataimport/src/main/java/io/jmix/dataimport/DataImportExecutor.java:164-170 | the verdict and the records added are those of the duplicate check followed, for a result that passed, by the predicate; the heap is the one the duplicate check leaves (the UPDATE duplicate re-populated, else unchanged) |
| Executor.DataImportExecutor.TryToImportEntities | dataimport/src/main/java/io/jmix/dataimport/DataImportExecutor.java:281-292 | the stored ids, or the first failure, as the storing specification says |
| Executor.DataImportExecutor.ImportEntities | dataimport/src/main/java/io/jmix/dataimport/DataImportExecutor.java:219-228 | the new result state and the escaped failure are those of the one-transaction storing outcome |
| Executor.DataImportExecutor.ImportEntity | dataimport/src/main/java/io/jmix/dataimport/DataImportExecutor.java:257-279 | the new result state and the escaped failure are those of the one-entity storing outcome |
| Executor.DataImportExecutor.ScreenAll | dataimport/src/main/java/io/jmix/dataimport/DataImportExecutor.java:116-119 | the checks run over the results in order, each on the heap the previous check left and leaving the heap CheckedHeap names, stopping exactly at the first that aborts; the heap ends as the trace's last; the entities are those let through in order (a stored duplicate under UPDATE in place of its result) and the failures grow by exactly what the checks record; the rest of the result is unchanged; without checks every entity passes in order, nothing is recorded and the heap is unchanged |
| Executor.DataImportExecutor.ImportInOneTransaction | dataimport/src/main/java/io/jmix/dataimport/DataImportExecutor.java:104-129 | a failed extraction resets the result with "Entities extraction failed: " and leaves the heap alone; otherwise the count is set, the checks run in order (OneTransactionRun), each leaving the heap CheckedHeap names, and the heap ends as the trace's last; an abort resets the result with the ABORT message, else the entities let through are stored together and an escaping failure resets the result with "Error while importing the data: "; success keeps the message and adds at most one id per result, failure counts no entity and adds no id; without checks and with every entity stored, success with exactly the stored ids |
| Executor.DataImportExecutor.ImportItem | dataimport/src/main/java/io/jmix/dataimport/DataImportExecutor.java:134-153 | the new result state, the abort and the escaped failure are those of the one-item step, and the heap is ItemHeap: the stored UPDATE duplicate of the extracted entity re-populated from the item, otherwise unchanged |
| Executor.DataImportExecutor.ImportInMultipleTransactions | dataimport/src/main/java/io/jmix/dataimport/DataImportExecutor.java:131-162 | marked successful first, then one item step per data item in order (MultipleTransactionsRun), each on the heap the previous left and leaving ItemHeap of it, stopping at the first that aborts or lets a failure escape; the final heap is that of the last item that ran; an abort marks the import failed with the ABORT message; a full pass counts every data item; imported ids and failures only grow, ids stay distinct; any DATA_BINDING or PERSISTENCE record added means failure, and no record added and no abort means success |
| Executor.DataImportExecutor.ImportData | dataimport/src/main/java/io/jmix/dataimport/DataImportExecutor.java:91-102 | no configuration or an invalid one throws its message and changes nothing; otherwise, from the result with the code recorded (ImportRun), SINGLE_TRANSACTION runs the one-transaction import, throwing nothing: a failed extraction resets the result with its error, a successful one is a OneTransactionRun ending in the trace's last heap (a failure there counts no entity); any other strategy runs the per-item import as MultipleTransactionsRun states, throwing what escapes (a success there counts every item); failures only grow |
| Executor.DataImportExecutor.ScreenNext | dataimport/src/main/java/io/jmix/dataimport/DataImportExecutor.java:116-119 | one check more, on the heap the trace ends with: a result that does not abort extends the trace by the heap CheckedHeap names, its entity (or the UPDATE duplicate) joining those let through and its records the failures; an abort changes nothing and reports that result |
| Executor.DataImportExecutor.ImportExtracted | dataimport/src/main/java/io/jmix/dataimport/DataImportExecutor.java:115-128 | after a successful extraction, the checks and the storing of the entities let through, with the abort and the escaping failure handled as OneTransactionRun states; the heap ends as the trace's last |
| Executor.DataImportExecutor.RunItems | dataimport/src/main/java/io/jmix/dataimport/DataImportExecutor.java:134-153 | the item loop: one item step after another, each on the heap and result the previous one left and leaving ItemHeap of that heap, stopping at the first that aborts or lets a failure escape (ItemsStopped); the final heap is that of the last item that ran |
| Executor.AbortLeavesHeap | dataimport/src/main/java/io/jmix/dataimport/DataImportExecutor.java:185-187 | a check that aborts found a duplicate under ABORT, left the heap alone and reports its own result |
| Executor.NoChecksTrace | dataimport/src/main/java/io/jmix/dataimport/DataImportExecutor.java:116-119 | without checks, the trace lets every result through in order, records nothing and leaves the heap alone |
| Executor.ScreenEnd | dataimport/src/main/java/io/jmix/dataimport/DataImportExecutor.java:116-119 | at the end of the filter, the failures extend the start, at most one entity per result passes, an abort names one of the results, and without checks every entity passes |
| Executor.ScreenedSnoc | dataimport/src/main/java/io/jmix/dataimport/DataImportExecutor.java:116-119 | a check that does not abort extends the screening state by one result: the heap trace, its accepted entity and its records |
| Executor.ScreenedPrefixSnoc | dataimport/src/main/java/io/jmix/dataimport/DataImportExecutor.java:116-119 | a check that does not abort, on the heap the trace left, extends the trace by one result |
| Executor.SamePrefixTrace | dataimport/src/main/java/io/jmix/dataimport/DataImportExecutor.java:116-119 | what the checks let through and record over a prefix depends only on that prefix of the heap trace |
| Executor.OneTransactionFacts | dataimport/src/main/java/io/jmix/dataimport/DataImportExecutor.java:104-129 | a one-transaction run that ends in success keeps the message, counts every result and adds at most one id per result; one that ends in failure counts no entity, has a message and adds no id; code and earlier failures stay; without checks and with every entity stored, success with exactly the stored ids |
| Executor.NoChecksStored | dataimport/src/main/java/io/jmix/dataimport/DataImportExecutor.java:116-121 | without checks and with every entity stored, the one-transaction run succeeds with exactly the stored ids and records no failure |
| Executor.ItemsRunSnoc | dataimport/src/main/java/io/jmix/dataimport/DataImportExecutor.java:134-153 | an item step that neither aborts nor escapes, leaving ItemHeap of the heap before it, extends the item trace |
| Executor.ItemsRunKeeps | dataimport/src/main/java/io/jmix/dataimport/DataImportExecutor.java:134-153 | over any run of item steps, imported ids and failures only grow, ids stay distinct, count, code and message are kept, success is lost only by recording a failure, and a DATA_BINDING or PERSISTENCE record means failure |
| Executor.StepsCompose | dataimport/src/main/java/io/jmix/dataimport/DataImportExecutor.java:134-153 | the facts one stretch of item steps keeps compose with those of the next stretch |
| Executor.MultipleTransactionsFacts | dataimport/src/main/java/io/jmix/dataimport/DataImportExecutor.java:131-162 | what a per-item run guarantees: ids and failures only grow and ids stay distinct; an abort marks failure with the ABORT message and keeps the count; an escape keeps message and count; a full pass counts every item; a DATA_BINDING or PERSISTENCE record added means failure; no record added and no abort means success |
| Executor.StoreFacts | dataimport/src/main/java/io/jmix/dataimport/DataImportExecutor.java:120-128 | storing the accepted entities keeps the count and message on success with one id per accepted entity, and on failure (an escape resets the result) counts no entity, has a message and adds no id |
| FieldNames.AddFieldNames | dataimport/src/main/java/io/jmix/dataimport/extractor/data/impl/JsonDataExtractor.java:61-67 | appending each name unless already listed gives the collected list of the reference fold |
| FieldNames.AddNewMembers | dataimport/src/main/java/io/jmix/dataimport/extractor/data/impl/JsonDataExtractor.java:61-67 | a name ends up listed exactly when it was listed before or is among the new names |
| FieldNames.AddNewIsFirstSeen | dataimport/src/main/java/io/jmix/dataimport/extractor/data/impl/JsonDataExtractor.java:61-67 | the collected list is the old list followed by the first occurrences of the new names not already listed, in order |
| FieldNames.AddNewConcat | dataimport/src/main/java/io/jmix/dataimport/extractor/data/impl/JsonDataExtractor.java:55-68 | collecting the names of one node after another is collecting their concatenation |
| FieldNames.AddNewNoDuplicates | dataimport/src/main/java/io/jmix/dataimport/extractor/data/impl/JsonDataExtractor.java:61-67 | starting from a list without repeats the collected list has none |
| JsonExtractor.NamesOf | dataimport/src/main/java/io/jmix/dataimport/extractor/data/impl/JsonDataExtractor.java:61-61 | the field names of an object, one per field, in order |
| JsonExtractor.ObjectsOf | dataimport/src/main/java/io/jmix/dataimport/extractor/data/impl/JsonDataExtractor.java:116-124 | one object per array element |
| JsonExtractor.FieldValuesKeys | dataimport/src/main/java/io/jmix/dataimport/extractor/data/impl/JsonDataExtractor.java:95-114 | a name is a raw value's key exactly when some field carries it |
| JsonExtractor.FieldValuesLastWins | dataimport/src/main/java/io/jmix/dataimport/extractor/data/impl/JsonDataExtractor.java:95-114 | the value under a name is that of the last field carrying it, converted: null to null, an object to a nested object, an array to an object list, anything else to its text |
| JsonExtractor.ReadRawValues | dataimport/src/main/java/io/jmix/dataimport/extractor/data/impl/JsonDataExtractor.java:95-114 | the raw values are exactly those the field-by-field reading defines |
| JsonExtractor.CreateImportedObject | dataimport/src/main/java/io/jmix/dataimport/extractor/data/impl/JsonDataExtractor.java:89-93 | the object of a node holds exactly the node's raw values |
| JsonExtractor.CreateImportedObjectList | dataimport/src/main/java/io/jmix/dataimport/extractor/data/impl/JsonDataExtractor.java:116-124 | the list holds the object of each element, in element order |
| JsonExtractor.CreateImportedDataItem | dataimport/src/main/java/io/jmix/dataimport/extractor/data/impl/JsonDataExtractor.java:82-87 | the item carries the given index and exactly the node's raw values |
| JsonExtractor.GetImportedData | dataimport/src/main/java/io/jmix/dataimport/extractor/data/impl/JsonDataExtractor.java:48-80 | an array root gives one item per element numbered from 1 and the elements' field names in first-seen order without repeats; an object root gives one item numbered 1 and its own field names; any other root gives empty data |
| JsonExtractor.ReadArrayRoot | dataimport/src/main/java/io/jmix/dataimport/extractor/data/impl/JsonDataExtractor.java:50-69 | one item per element with index k + 1 and the collected field names of all elements |
| JsonExtractor.ReadObjectRoot | dataimport/src/main/java/io/jmix/dataimport/extractor/data/impl/JsonDataExtractor.java:70-77 | the field names in the object's order, then its single item with index 1 |
| JsonExtractor.ArrayFieldNames | dataimport/src/main/java/io/jmix/dataimport/extractor/data/impl/JsonDataExtractor.java:53-69 | the field names of an array root name every element's field exactly once, in first-seen order |
| XmlExtractor.AnyTextOnly | dataimport/src/main/java/io/jmix/dataimport/extractor/data/impl/XmlDataExtractor.java:110-112 | true exactly when some element is text-only |
| XmlExtractor.ContainsSimpleValues | dataimport/src/main/java/io/jmix/dataimport/extractor/data/impl/XmlDataExtractor.java:110-112 | true exactly when some child element is text-only |
| XmlExtractor.NamesOf | dataimport/src/main/java/io/jmix/dataimport/extractor/data/impl/XmlDataExtractor.java:71-72 | the tag names of the elements, one per element, in order |
| XmlExtractor.NonText | dataimport/src/main/java/io/jmix/dataimport/extractor/data/impl/XmlDataExtractor.java:122-122 | exactly the elements that are not text-only |
| XmlExtractor.Named | dataimport/src/main/java/io/jmix/dataimport/extractor/data/impl/XmlDataExtractor.java:122-128 | only elements of the list carrying the tag |
| XmlExtractor.Groups | dataimport/src/main/java/io/jmix/dataimport/extractor/data/impl/XmlDataExtractor.java:120-130 | one entry per tag that occurs, holding the elements with that tag in order |
| XmlExtractor.GroupsOf | dataimport/src/main/java/io/jmix/dataimport/extractor/data/impl/XmlDataExtractor.java:120-130 | every grouped element is a child of the parent |
| XmlExtractor.GroupsSnoc | dataimport/src/main/java/io/jmix/dataimport/extractor/data/impl/XmlDataExtractor.java:123-127 | one more element is appended to its tag's list, the list being created when the tag is new |
| XmlExtractor.GroupElementsByTag | dataimport/src/main/java/io/jmix/dataimport/extractor/data/impl/XmlDataExtractor.java:120-130 | the map holds, for each tag, the children that are not text-only with that tag, in document order |
| XmlExtractor.GroupsOfAt | dataimport/src/main/java/io/jmix/dataimport/extractor/data/impl/XmlDataExtractor.java:120-130 | a tag has a group exactly when some child that is not text-only carries it, and then the group is never empty |
| XmlExtractor.NamedIffTag | dataimport/src/main/java/io/jmix/dataimport/extractor/data/impl/XmlDataExtractor.java:120-130 | a tag has elements exactly when it occurs |
| XmlExtractor.ObjectsOf | dataimport/src/main/java/io/jmix/dataimport/extractor/data/impl/XmlDataExtractor.java:114-118 | one object per element |
| XmlExtractor.ObjectsOfInOrder | dataimport/src/main/java/io/jmix/dataimport/extractor/data/impl/XmlDataExtractor.java:114-118 | the list holds the object of each element, in the elements' order |
| XmlExtractor.ChildIsSmaller | dataimport/src/main/java/io/jmix/dataimport/extractor/data/impl/XmlDataExtractor.java:93-108 | a child element is strictly smaller than its parent, so the recursive reading ends |
| XmlExtractor.OverlayStep | dataimport/src/main/java/io/jmix/dataimport/extractor/data/impl/XmlDataExtractor.java:96-107 | visiting one more tag puts its group's value over the text values when the group is not empty and changes nothing otherwise |
| XmlExtractor.ReadTextValues | dataimport/src/main/java/io/jmix/dataimport/extractor/data/impl/XmlDataExtractor.java:94-94 | every text-only child's trimmed text under its tag, a later one of the same tag winning |
| XmlExtractor.PutGroupValues | dataimport/src/main/java/io/jmix/dataimport/extractor/data/impl/XmlDataExtractor.java:95-107 | after visiting the tags in whatever order the map gives, every tag with a group holds its group's value and the other keys keep their text values |
| XmlExtractor.ReadRawValues | dataimport/src/main/java/io/jmix/dataimport/extractor/data/impl/XmlDataExtractor.java:93-108 | the raw values are exactly the text values overlaid by the group values |
| XmlExtractor.TextValuesKeys | dataimport/src/main/java/io/jmix/dataimport/extractor/data/impl/XmlDataExtractor.java:94-94 | a name is a text value's key exactly when a text-only child carries it |
| XmlExtractor.TextValuesLastWins | dataimport/src/main/java/io/jmix/dataimport/extractor/data/impl/XmlDataExtractor.java:94-94 | the text value under a name comes from the last text-only child carrying it |
| XmlExtractor.RawValuesAt | dataimport/src/main/java/io/jmix/dataimport/extractor/data/impl/XmlDataExtractor.java:93-108 | a raw value comes from its tag's group when it has one, otherwise from the text values, and a name is a key exactly when it is in either |
| XmlExtractor.RawValuesKeys | dataimport/src/main/java/io/jmix/dataimport/extractor/data/impl/XmlDataExtractor.java:93-108 | a name is a raw value's key exactly when some child element carries it |
| XmlExtractor.NestedValueWins | dataimport/src/main/java/io/jmix/dataimport/extractor/data/impl/XmlDataExtractor.java:96-107 | a tag carried by a child that is not text-only takes the value of its group: one element with simple values its object, one element without them the list of its children, several elements their list; a text-only sibling of the same tag is overwritten |
| XmlExtractor.TextValueStands | dataimport/src/main/java/io/jmix/dataimport/extractor/data/impl/XmlDataExtractor.java:93-108 | a text-only child whose tag no later text-only child and no other child carries gives its trimmed text |
| XmlExtractor.CreateImportedObject | dataimport/src/main/java/io/jmix/dataimport/extractor/data/impl/XmlDataExtractor.java:87-91 | the object of an element holds exactly its raw values |
| XmlExtractor.CreateImportedObjectList | dataimport/src/main/java/io/jmix/dataimport/extractor/data/impl/XmlDataExtractor.java:114-118 | the list holds the object of each element, in order |
| XmlExtractor.CreateImportedDataItem | dataimport/src/main/java/io/jmix/dataimport/extractor/data/impl/XmlDataExtractor.java:80-85 | the item carries the given index and exactly the element's raw values |
| XmlExtractor.GetImportedData | dataimport/src/main/java/io/jmix/dataimport/extractor/data/impl/XmlDataExtractor.java:44-78 | a root without text-only children gives one item per child numbered from 1 and the grandchildren's tags in first-seen order without repeats (empty data for no children); a root with one gives itself as the single item numbered 1 and its children's distinct tags |
| XmlExtractor.ReadElementItems | dataimport/src/main/java/io/jmix/dataimport/extractor/data/impl/XmlDataExtractor.java:49-66 | one item per child with index k + 1 and the collected tags of all grandchildren |
| XmlExtractor.ItemFieldNames | dataimport/src/main/java/io/jmix/dataimport/extractor/data/impl/XmlDataExtractor.java:58-74 | the field names of either branch list every tag once and only tags that occur |
| CsvExtractor.FirstLongRow | dataimport/src/main/java/io/jmix/dataimport/extractor/data/impl/CsvDataExtractor.java:74-80 | the first row after the header with more values than the header has names, all rows before it fitting; none when every row fits |
| CsvExtractor.GetImportedData | dataimport/src/main/java/io/jmix/dataimport/extractor/data/impl/CsvDataExtractor.java:63-86 | no rows give empty data; otherwise it fails exactly when some row is longer than the header, with the index error of the first such row at its first surplus column; on success the header is the field names and row i, for i from 1, is the item numbered i holding its values under the column names |
| CsvExtractor.RowValuesKeys | dataimport/src/main/java/io/jmix/dataimport/extractor/data/impl/CsvDataExtractor.java:78-80 | a field is a key of a row's values exactly when the row reaches a column of that name |
| CsvExtractor.RowValuesLastWins | dataimport/src/main/java/io/jmix/dataimport/extractor/data/impl/CsvDataExtractor.java:78-80 | of two columns with the same name the later one's value is kept |
| CsvExtractor.DistinctColumns | dataimport/src/main/java/io/jmix/dataimport/extractor/data/impl/CsvDataExtractor.java:72-80 | with distinct column names each value sits under its own column and the columns the row does not reach read as null |
| XmlExtractor.AddChildNames | dataimport/src/main/java/io/jmix/dataimport/extractor/data/impl/XmlDataExtractor.java:58-63 | the tags collected so far extended by one element's child tags are the tags collected over one more element |
| XmlExtractor.AddToGroup | dataimport/src/main/java/io/jmix/dataimport/extractor/data/impl/XmlDataExtractor.java:123-127 | the element is appended to its tag's list, which starts empty for a tag not yet seen; every other tag keeps its list |
| XmlExtractor.GroupsStep | dataimport/src/main/java/io/jmix/dataimport/extractor/data/impl/XmlDataExtractor.java:122-128 | grouping one more child is the previous grouping with that child appended under its tag |
| XmlExtractor.ReadGroupValue | dataimport/src/main/java/io/jmix/dataimport/extractor/data/impl/XmlDataExtractor.java:97-106 | the value a tag's group gets: a single element with text-only children is one object, a single element without them the list of its children, several elements the list of their objects |
| XmlExtractor.PutGroupValue | dataimport/src/main/java/io/jmix/dataimport/extractor/data/impl/XmlDataExtractor.java:96-107 | visiting one more tag adds its group's value to the values of the tags already visited |

## Left out

- Parsing. Jackson, dom4j, OpenCSV and charset decoding are foreign libraries, so the extractors start from the parsed tree or the rows. The `extract` overloads and their wrapping of I/O and parse errors into ImportException are not modelled.
- ExcelDataExtractor: a thin loop over Apache POI, a foreign library.
- DataImporterImpl and ImportedDataExtractors: Spring wiring and bean lookup.
- Import plans anywhere in DataImportExecutor (createEntityImportPlan and the helpers after line 294), and the fetch plan of getFetchPlanBuilder. Both are built from the Jmix metamodel.
- Storing: the `store` collaborator stands for EntityImportExport plus the choice of the imported instance of the configured class. It answers an id, a validation failure, a persistence failure or any other failure.
- DuplicateEntityManager, Metadata.create, EntityValues and EntityStates are not shown in the source.
  - The heap and the `Ports`, `ProviderPorts` and `Collaborators` functions stand in for them.
  - `find` is taken to answer a member of the given pool that exists, and `load` an instance that exists.
- Date, LocalDate, Double and BigDecimal coercion. They use JDK formatters, floating point and BigDecimal parsing, so they are given functions. Only the dispatch to them is modelled.
- Custom value functions and CustomValuePropertyBinder. The user's function is named by an id and applied through a given function.
- ReferenceValueProvider and the simple and custom providers of `configuration.mapping`, and PropertyMappingContext's raw value. These classes are not part of this model, so they are the functions of `ProviderPorts`.
- Logging and `toString`. The ABORT messages embed the text of entities and items through the `describeEntity` and `describeItem` functions.
- Identity of raw data holders.
  - `ImportedObject` and `ImportedDataItem` are values, and their mutators return the updated holder where Java returns `this`.
  - Two references to one Java holder, and updates seen through another reference, are not captured.
  - The holders nest inside raw values and are only read once built.
- ImportedObject's `dataFieldName` field: nothing in the modelled code reads it.
- The `uniqueEntityConfigurations` list that builder/ImportConfigurationBuilder.java shares with the configuration it builds. The model copies it.
- HashMap iteration order.
  - In builder/ImportConfigurationBuilder.java the mapping table yields its values in first-insertion order. This is an assumption about `HashMap.values()`.
  - In XmlDataExtractor.readRawValues the tags are visited in any order. The model proves the order does not matter, because the tags are distinct.
- `ObjectPathUtils.parseValuePath` is modelled as a split at every '.'. Bracketed path segments are not.
- ReferencePopulation.CreateEntityCollection: does not state the raw values source the mapping context is left with. ReferenceCreator changes that source in place through `setRawValuesSource`, and in the model the context is a value passed along. Nor does it state the nested values each built instance carries, for the reason given for Population.CreateEntityCollection.
- ConfigMapping.ReferenceMultiFieldBuilder.AddReferencePropertyMapping: modelled as the evident intent, a reference mapping with the given fields. The source calls a one-argument ReferencePropertyMapping constructor and setters that ReferencePropertyMapping.java does not declare.
- `withLookupPropertyNames(null)` is modelled as the empty list. The two validations (configuration/mapping/ReferenceMultiFieldPropertyMapping.java:186 and DataImportExecutor.java:372) treat null and empty alike through `isEmpty`. The lookup filter at property/populator/PropertyMappingUtils.java:57 calls `contains` on the list and throws a NullPointerException on null. That exception is not modelled; the model filters against the empty list and finds no lookup mapping.
- EntityExtractorImpl: the branch at line 88 that skips a created association holding a collection cannot arise. The model's created associations are single instances.
- DataImportExecutor uses EntityImportErrorType and EntityImportError.java uses ImportErrorType. The model has one `ErrorType` with the constants both use.
- Item indexes, counts and ids are unbounded integers. More than 2^31 items is not modelled.
- The exception types thrown: ImportException, IllegalArgumentException and IllegalStateException are all a failure carrying the message.
- Unicode in the coercions. The model folds case and reads digits for ASCII only; Java uses full Unicode and the default locale.
- Coercion.ToUpperCase: upper-cases ASCII letters only and keeps the length. Java's `String.toUpperCase()` maps every Unicode letter, depends on the locale ("i" becomes "İ" under a Turkish locale) and can change the length ("ß" becomes "SS").
- Coercion.ParseDecimal: accepts ASCII digits only. `Integer.parseInt` and `Long.parseLong` accept any Unicode decimal digit through `Character.digit`, so "١٢" parses as 12 in Java and is rejected here.
- Coercion.ParseInteger: inherits the ASCII-only digits of ParseDecimal.
- Coercion.ParseLong: inherits the ASCII-only digits of ParseDecimal.
- Coercion.IntegerValueOf: a string of non-ASCII decimal digits gives null here, where Java parses it.
- Coercion.LongValueOf: a string of non-ASCII decimal digits gives null here, where Java parses it.
- Coercion.BooleanValueOf: "true" and the configured literals are compared with ASCII-only case folding. `equalsIgnoreCase` folds every Unicode letter, so a true literal "да" matches the raw "ДА" in Java and gives null here.
- Coercion.BooleanWithLiterals: the same ASCII-only comparison of the configured literals as BooleanValueOf.
- Coercion.EnumValueOf: the raw string is upper-cased ASCII-only before the constant is looked up, so "äpfel" reaches no constant here and reaches ÄPFEL in Java.
- Coercion.EnumPropertyByName: inherits the ASCII-only upper-casing of EnumValueOf.
- Identity of mappings as pool keys. EntityExtractor.AddToPool, EntityExtractor.FillPools, Population.PoolOf and ReferencePopulation.PoolFor key the pools by the mapping's value. Java keys its `HashMap<PropertyMapping, List<Object>>` by identity, since neither mapping class overrides `equals` or `hashCode`. Two distinct mappings with equal contents share one pool here and have separate pools in Java.
- Error paths of the metamodel. The `Metamodel` function is total: every class has every property, and every association's range is a class.
  - configuration/ImportConfigurationValidator.java:53-58 reads `getProperty` for the mapping's name; an unknown name gives null, and `isEmbedded(null)` or `getRange()` then throws.
  - `getRange().asClass()` throws IllegalStateException on a datatype range, in ImportConfigurationValidator.java:58, AssociationCreator.java:122, ReferenceCreator.java:127 and PropertyMappingUtils.java:59.
  - property/binding/impl/SimplePropertyValueProvider.java:42-43 dereferences a property that may be null.
  - The extraction methods of EntityExtractor require the configuration to name an entity class. Java calls `metadata.create` with a null class there, and it throws.
- XML content: an element is text-only when no child element is present. dom4j's `isTextOnly` is also false for an element holding a comment or a processing instruction, and those nodes are not modelled.
- Population.CreateEntityCollection: does not state the nested values each built instance carries. The invariant of the resolving loop only says each is new and of the range class; CreateAssociation states each instance's nested values one call at a time, and population by a later object can overwrite them.
- ReferencePopulation.PopulateAll: the reference providers are functions of a heap snapshot. The instances a reference value creates or updates inside ReferenceValueProvider are not added to the model's heap, so the frame states that no other instance changes. ReferenceValueProvider is not part of this model.
- JSON objects are lists of fields and may repeat a name, which Jackson's ObjectNode never yields; a repeated name is read once per occurrence.
- The link between the executor and the entity extractor. The executor's `extractAll` and `extractOne` collaborators stand for the two `EntityExtractor.extract` overloads that DataImportExecutor.java:109 and :137 call. The model does not prove that they agree with EntityExtractor.ExtractAll and EntityExtractor.ExtractOne. DataImportExecutor passes a `configuration.ImportConfiguration` there, while extractor/entity/EntityExtractor.java:37 and :47 take the `model.configuration.ImportConfiguration` that EntityExtractorImpl works on. The two classes have different mappings, so the executor takes extraction as a function of its configuration and items.
- A to-many property whose current value is not a collection. Population.CreateOneToManyAssociation and ReferencePopulation.CreateOneToManyCollection treat that value as absent and start from an empty collection. property/association/AssociationCreator.java:61 and property/populator/impl/ReferenceCreator.java:79 assign it to a `Collection<Object>`, which throws ClassCastException for any other value.
- Dotted property paths when a value is written. property/populator/impl/EntityPropertiesPopulatorImpl.java:75 writes with `EntityValues.setValueEx`, which follows a dotted path through the instances it names. The model writes the whole `entityPropertyName` as one property of the entity (`WithProperty`), so a dotted name sets a property of that name rather than a property of a referenced instance.
