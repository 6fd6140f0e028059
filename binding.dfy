/**
 * What a property binder works with (property/binding): the binding context
 * of one mapping (PropertyBindingContext.java), the lookup values of a set of
 * mappings (PropertyBindingUtils.java), the choice of binder
 * (PropertyBinders.java) and the simple value coercion of the
 * `model.configuration` mappings (impl/SimplePropertyValueProvider.java).
 */
module Binding {
  import opened Wrappers
  import opened RawData
  import opened Metadata
  import opened Coercion
  import opened Entities
  import opened ModelConfiguration

  /** `getRawValue(fieldName)` with a possibly null field name; a null name finds nothing. */
  function FieldValue(o: ImportedObject, fieldName: Option<string>): (r: Value)
    ensures fieldName.None? ==> r == Null
    ensures fieldName.Some? ==> r == o.GetRawValue(fieldName.value)
  {
    if fieldName.None? then Null else o.GetRawValue(fieldName.value)
  }

  /**
   * `SimplePropertyValueProvider.getValue(rawValue, entityMetaClass, propertyMapping, configuration)`:
   * coercion by the Java type of the mapped property, the mapping's default value when it gives null.
   */
  function SimpleValue(ports: Ports, formats: Formats, ownerClass: string, m: PropertyMapping, raw: Value): (r: Value)
    ensures var t := ports.metamodel(ownerClass, m.propertyName).javaType;
      r == GetValue(raw, t, m.defaultValue, formats, ports.external)
  {
    GetValue(raw, ports.metamodel(ownerClass, m.propertyName).javaType, m.defaultValue, formats, ports.external)
  }

  /** The constructor's choice of source: the nested object the mapping's field holds, if it holds one. */
  function ContextSource(m: PropertyMapping, source: ImportedObject): (r: ImportedObject)
    ensures FieldValue(source, m.fieldName).Object? ==> r == FieldValue(source, m.fieldName).obj
    ensures !FieldValue(source, m.fieldName).Object? ==> r == source
  {
    var raw := FieldValue(source, m.fieldName);
    if raw.Object? then raw.obj else source
  }

  /** `getRawValue`: the field's value, or the source object itself when the field reads null; never null. */
  function ContextRawValue(m: PropertyMapping, source: ImportedObject): (r: Value)
    ensures r != Null
    ensures FieldValue(source, m.fieldName) != Null ==> r == FieldValue(source, m.fieldName)
    ensures FieldValue(source, m.fieldName) == Null ==> r == Object(source)
  {
    var raw := FieldValue(source, m.fieldName);
    if raw != Null then raw else Object(source)
  }

  /** A mapping whose field holds a nested object reads, through its context, that object's own field, or the object. */
  lemma NestedSourceRawValue(m: PropertyMapping, source: ImportedObject)
    requires FieldValue(source, m.fieldName).Object?
    ensures var nested := FieldValue(source, m.fieldName).obj;
      ContextRawValue(m, ContextSource(m, source)) ==
        (if FieldValue(nested, m.fieldName) != Null then FieldValue(nested, m.fieldName) else Object(nested))
  {
  }

  class PropertyBindingContext {
    var importConfiguration: ImportConfiguration
    var propertyMapping: PropertyMapping
    var sourceObject: ImportedObject
    /** Null until set; `createContext` sets it. */
    var ownerEntityMetaClass: Option<string>
    /** The pool of instances created for this mapping so far; null unless set. */
    var createdAssociations: Option<seq<EntityId>>

    constructor (importConfiguration: ImportConfiguration, propertyMapping: PropertyMapping, sourceObject: ImportedObject)
      ensures this.importConfiguration == importConfiguration && this.propertyMapping == propertyMapping
      ensures this.sourceObject == ContextSource(propertyMapping, sourceObject)
      ensures ownerEntityMetaClass.None? && createdAssociations.None?
    {
      this.importConfiguration := importConfiguration;
      this.propertyMapping := propertyMapping;
      this.sourceObject := ContextSource(propertyMapping, sourceObject);
      ownerEntityMetaClass := None;
      createdAssociations := None;
    }

    function GetRawValue(): (r: Value)
      reads this
      ensures r != Null
      ensures r == ContextRawValue(propertyMapping, sourceObject)
    {
      ContextRawValue(propertyMapping, sourceObject)
    }

    /** `getAssociationMetaProperty`: the owner class's property named by the mapping. */
    function GetAssociationMetaProperty(mm: Metamodel): (r: MetaProperty)
      reads this`ownerEntityMetaClass, this`propertyMapping
      requires ownerEntityMetaClass.Some?
      ensures r == mm(ownerEntityMetaClass.value, propertyMapping.propertyName)
    {
      mm(ownerEntityMetaClass.value, propertyMapping.propertyName)
    }

    method SetImportConfiguration(v: ImportConfiguration)
      modifies this`importConfiguration ensures importConfiguration == v { importConfiguration := v; }
    method SetPropertyMapping(v: PropertyMapping)
      modifies this`propertyMapping ensures propertyMapping == v { propertyMapping := v; }
    method SetSourceObject(v: ImportedObject)
      modifies this`sourceObject ensures sourceObject == v { sourceObject := v; }
    method SetOwnerEntityMetaClass(v: Option<string>)
      modifies this`ownerEntityMetaClass ensures ownerEntityMetaClass == v { ownerEntityMetaClass := v; }
    method SetCreatedAssociations(v: Option<seq<EntityId>>)
      modifies this`createdAssociations ensures createdAssociations == v { createdAssociations := v; }
  }

  /** `PropertyBindingUtils.createContext`: a fresh context whose owner class is the entity's class. */
  method CreateContext(heap: EntityHeap, entity: EntityId, config: ImportConfiguration,
                       source: ImportedObject, m: PropertyMapping) returns (ctx: PropertyBindingContext)
    ensures fresh(ctx)
    ensures ctx.importConfiguration == config && ctx.propertyMapping == m
    ensures ctx.sourceObject == ContextSource(m, source)
    ensures ctx.ownerEntityMetaClass == Some(heap.MetaClassOf(entity)) && ctx.createdAssociations.None?
  {
    ctx := new PropertyBindingContext(config, m, source);
    ctx.SetOwnerEntityMetaClass(Some(heap.MetaClassOf(entity)));
  }

  /**
   * The lookup values of a list of mappings read from one source: every
   * non-association mapping puts its coerced value under its property name,
   * a later mapping of the same name replacing an earlier one; nulls are kept.
   */
  function PropertyValues(ports: Ports, formats: Formats, ownerClass: string,
                          ms: seq<PropertyMapping>, source: ImportedObject): map<string, Value>
  {
    if |ms| == 0 then map[]
    else
      var previous := PropertyValues(ports, formats, ownerClass, ms[..|ms| - 1], source);
      var m := ms[|ms| - 1];
      if m.isAssociation then previous
      else previous[m.propertyName := SimpleValue(ports, formats, ownerClass, m, FieldValue(source, m.fieldName))]
  }

  /** The keys are exactly the property names of the non-association mappings. */
  lemma {:induction false} PropertyValuesKeys(ports: Ports, formats: Formats, ownerClass: string,
                                             ms: seq<PropertyMapping>, source: ImportedObject, name: string)
    ensures name in PropertyValues(ports, formats, ownerClass, ms, source) <==>
      exists i :: 0 <= i < |ms| && !ms[i].isAssociation && ms[i].propertyName == name
  {
    if |ms| > 0 {
      var n := |ms| - 1;
      PropertyValuesKeys(ports, formats, ownerClass, ms[..n], source, name);
      if exists i :: 0 <= i < n && !ms[..n][i].isAssociation && ms[..n][i].propertyName == name {
        var i :| 0 <= i < n && !ms[..n][i].isAssociation && ms[..n][i].propertyName == name;
        assert ms[i] == ms[..n][i];
      }
      if exists i :: 0 <= i < |ms| && !ms[i].isAssociation && ms[i].propertyName == name {
        var i :| 0 <= i < |ms| && !ms[i].isAssociation && ms[i].propertyName == name;
        if i < n {
          assert ms[..n][i] == ms[i];
        }
      }
    }
  }

  /** Each value is its mapping's coercion of the raw value under its field, the last mapping of a name winning. */
  lemma {:induction false} PropertyValuesLastWins(ports: Ports, formats: Formats, ownerClass: string,
                                                 ms: seq<PropertyMapping>, source: ImportedObject, i: nat)
    requires i < |ms| && !ms[i].isAssociation
    requires forall j :: i < j < |ms| && !ms[j].isAssociation ==> ms[j].propertyName != ms[i].propertyName
    ensures var values := PropertyValues(ports, formats, ownerClass, ms, source);
      ms[i].propertyName in values &&
      values[ms[i].propertyName] == SimpleValue(ports, formats, ownerClass, ms[i], FieldValue(source, ms[i].fieldName))
  {
    var n := |ms| - 1;
    if i < n {
      assert forall j :: i < j < n ==> ms[..n][j] == ms[j];
      PropertyValuesLastWins(ports, formats, ownerClass, ms[..n], source, i);
      assert ms[..n][i] == ms[i];
    }
  }

  /** The protected `getPropertyValues`: a HashMap filled by one pass over the mappings. */
  method GetPropertyValuesOf(ports: Ports, formats: Formats, ownerClass: string,
                             ms: seq<PropertyMapping>, source: ImportedObject) returns (values: map<string, Value>)
    ensures values == PropertyValues(ports, formats, ownerClass, ms, source)
  {
    values := map[];
    var i := 0;
    while i < |ms|
      invariant 0 <= i <= |ms|
      invariant values == PropertyValues(ports, formats, ownerClass, ms[..i], source)
    {
      var m := ms[i];
      assert ms[..i + 1][..i] == ms[..i];
      if !m.isAssociation {
        values := values[m.propertyName := SimpleValue(ports, formats, ownerClass, m, FieldValue(source, m.fieldName))];
      }
      i := i + 1;
    }
    assert ms[..|ms|] == ms;
  }

  /** The context overload: the association's nested mappings, against the association's class, from the context's source. */
  method GetPropertyValues(ports: Ports, ctx: PropertyBindingContext) returns (values: map<string, Value>)
    requires ctx.ownerEntityMetaClass.Some?
    ensures values == PropertyValues(ports, ctx.importConfiguration.Formats(),
      ctx.GetAssociationMetaProperty(ports.metamodel).rangeClass, ctx.propertyMapping.propertyMappings, ctx.sourceObject)
  {
    var associationClass := ctx.GetAssociationMetaProperty(ports.metamodel).rangeClass;
    values := GetPropertyValuesOf(ports, ctx.importConfiguration.Formats(), associationClass,
                                  ctx.propertyMapping.propertyMappings, ctx.sourceObject);
  }

  /**
   * The root overload: the configuration's mappings against its entity class.
   * The source fails on a configuration without an entity class; the model requires one.
   */
  method GetPropertyValuesOfItem(ports: Ports, config: ImportConfiguration, item: ImportedDataItem)
    returns (values: map<string, Value>)
    requires config.entityMetaClass.Some?
    ensures values == PropertyValues(ports, config.Formats(), config.entityMetaClass.value,
                                     config.propertyMappings, item.AsObject())
  {
    values := GetPropertyValuesOf(ports, config.Formats(), config.entityMetaClass.value,
                                  config.propertyMappings, item.AsObject());
  }

  /** The three binders. */
  datatype PropertyBinder = CustomValuePropertyBinder | SimplePropertyBinder | AssociationPropertyBinder

  /** `getPropertyBinder`. */
  function GetPropertyBinder(m: PropertyMapping): (r: PropertyBinder)
    ensures r == CustomValuePropertyBinder <==> m.customValueFunction.Some?
    ensures r == SimplePropertyBinder <==> m.customValueFunction.None? && !m.isAssociation
    ensures r == AssociationPropertyBinder <==> m.customValueFunction.None? && m.isAssociation
  {
    if m.customValueFunction.Some? then CustomValuePropertyBinder
    else if !m.isAssociation then SimplePropertyBinder
    else AssociationPropertyBinder
  }

  /** The choice reads nothing but the custom function's presence and the association flag. */
  lemma BinderDependsOnFlagsOnly(m1: PropertyMapping, m2: PropertyMapping)
    requires m1.customValueFunction.Some? == m2.customValueFunction.Some?
    requires m1.isAssociation == m2.isAssociation
    ensures GetPropertyBinder(m1) == GetPropertyBinder(m2)
  {
  }
}
