/**
 * What the importer asks of Jmix's metamodel about an entity property. The
 * metamodel itself is outside the model: it is passed around as a function
 * from (entity class name, property name) to the property's description.
 */
module Metadata {
  import opened Wrappers

  /** The Java types SimplePropertyValueProvider and the collection builders tell apart. */
  datatype JavaType =
    | IntegerType | LongType | DoubleType | DateType | LocalDateType | BooleanType | BigDecimalType
    | EnumType(constants: seq<string>)   // an enum class: its constants' names in declaration order
    | StringType
    | ListType | SetType                 // java.util.List, java.util.Set
    | EntityType                         // an entity class
    | OtherType                          // any other class, primitive types included

  datatype Cardinality = NONE | ONE_TO_ONE | MANY_TO_ONE | ONE_TO_MANY | MANY_TO_MANY

  /**
   * A MetaProperty: its Java type, the cardinality of its range, the entity
   * class of its range (`getRange().asClass()`, meaningful for class ranges),
   * whether it is embedded, and the name of its inverse property, if any.
   */
  datatype MetaProperty = MetaProperty(
    javaType: JavaType,
    cardinality: Cardinality,
    rangeClass: string,
    embedded: bool,
    inverse: Option<string>)

  /** `metaClass.getProperty(name)`, for every entity class and property name. */
  type Metamodel = (string, string) -> MetaProperty
}
