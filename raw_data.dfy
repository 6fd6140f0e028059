/**
 * The values the importer reads from input files and writes into entities.
 *
 * Java treats every raw value and property value as `Object`; the model gives
 * the kinds the importer distinguishes a constructor each. Raw data holders
 * that nest inside raw values (ImportedObject, ImportedDataItem) are values:
 * their mutators return the updated holder. ImportedData, the top-level
 * holder an extractor fills, is an object.
 */
module RawData {
  import opened Wrappers

  /** An entity instance, as an index into the entity heap (see module Entities). */
  type EntityId = nat

  /** The two collection classes the importer instantiates: ArrayList and LinkedHashSet. */
  datatype CollectionKind = ListKind | SetKind

  datatype Value =
    | Null
    | Str(s: string)
    | IntegerValue(i: int)          // java.lang.Integer
    | LongValue(l: int)             // java.lang.Long
    | BooleanValue(b: bool)
    | EnumValue(constant: string)   // an enum constant, by name
    | Object(obj: ImportedObject)   // a nested ImportedObject
    | ObjectList(objects: seq<ImportedObject>)  // an ImportedObjectList
    | EntityRef(id: EntityId)       // an entity instance
    | Collection(kind: CollectionKind, members: seq<EntityId>)  // a List or Set of entities
    | OtherValue(tag: nat)          // any other Java object (Double, Date, BigDecimal, ...)

  /** A map from data field names to raw values (extractor/data/ImportedObject.java). */
  datatype ImportedObject = ImportedObject(rawValues: map<string, Value>)
  {
    /** `getRawValue`: HashMap.get, so an absent field reads as null. */
    function GetRawValue(dataFieldName: string): (r: Value)
      ensures dataFieldName !in rawValues ==> r == Null
      ensures dataFieldName in rawValues ==> r == rawValues[dataFieldName]
    {
      if dataFieldName in rawValues then rawValues[dataFieldName] else Null
    }

    /** `addRawValue`: HashMap.put; a later value for the same field replaces the earlier one. */
    function AddRawValue(dataFieldName: string, value: Value): (r: ImportedObject)
      ensures r.GetRawValue(dataFieldName) == value
      ensures forall f :: f != dataFieldName ==> r.GetRawValue(f) == GetRawValue(f)
      ensures r.rawValues.Keys == rawValues.Keys + {dataFieldName}
    {
      ImportedObject(rawValues[dataFieldName := value])
    }

    /** `setRawValues`: the holder from then on reads the given map. */
    function SetRawValues(values: map<string, Value>): (r: ImportedObject)
      ensures forall f :: r.GetRawValue(f) == (if f in values then values[f] else Null)
    {
      ImportedObject(values)
    }
  }

  /** An absent field and a field stored as null read the same. */
  lemma AbsentReadsAsStoredNull(o: ImportedObject, f: string)
    requires f !in o.rawValues
    ensures o.GetRawValue(f) == o.AddRawValue(f, Null).GetRawValue(f) == Null
  {
  }

  /** One record of the input: raw values plus its 1-based position (extractor/data/ImportedDataItem.java). */
  datatype ImportedDataItem = ImportedDataItem(rawValues: map<string, Value>, itemIndex: int)
  {
    function GetRawValue(dataFieldName: string): (r: Value)
      ensures dataFieldName !in rawValues ==> r == Null
      ensures dataFieldName in rawValues ==> r == rawValues[dataFieldName]
    {
      if dataFieldName in rawValues then rawValues[dataFieldName] else Null
    }

    function AddRawValue(dataFieldName: string, value: Value): (r: ImportedDataItem)
      ensures r.itemIndex == itemIndex
      ensures r.GetRawValue(dataFieldName) == value
      ensures forall f :: f != dataFieldName ==> r.GetRawValue(f) == GetRawValue(f)
    {
      ImportedDataItem(rawValues[dataFieldName := value], itemIndex)
    }

    function SetItemIndex(index: int): (r: ImportedDataItem)
      ensures r.itemIndex == index && r.rawValues == rawValues
    {
      this.(itemIndex := index)
    }

    function SetRawValues(values: map<string, Value>): (r: ImportedDataItem)
      ensures r.itemIndex == itemIndex
      ensures forall f :: r.GetRawValue(f) == (if f in values then values[f] else Null)
    {
      this.(rawValues := values)
    }

    /** The item read as a raw values source (both implement RawValuesSource). */
    function AsObject(): (r: ImportedObject)
      ensures forall f :: r.GetRawValue(f) == GetRawValue(f)
    {
      ImportedObject(rawValues)
    }
  }

  /** A new item: no raw values and index 0, Java's default for an int field. */
  function EmptyItem(): (r: ImportedDataItem)
    ensures r.itemIndex == 0 && forall f :: r.GetRawValue(f) == Null
  {
    ImportedDataItem(map[], 0)
  }

  /** All records of one input plus the field names found in it (extractor/data/ImportedData.java). */
  class ImportedData {
    var items: seq<ImportedDataItem>
    var fieldNames: seq<string>

    constructor ()
      ensures items == [] && fieldNames == []
    {
      items := [];
      fieldNames := [];
    }

    method AddItem(item: ImportedDataItem)
      modifies this`items
      ensures items == old(items) + [item]
    {
      items := items + [item];
    }

    /** `addFieldName` appends without removing duplicates. */
    method AddFieldName(fieldName: string)
      modifies this`fieldNames
      ensures fieldNames == old(fieldNames) + [fieldName]
    {
      fieldNames := fieldNames + [fieldName];
    }

    method SetItems(newItems: seq<ImportedDataItem>)
      modifies this`items
      ensures items == newItems
    {
      items := newItems;
    }

    method SetFieldNames(names: seq<string>)
      modifies this`fieldNames
      ensures fieldNames == names
    {
      fieldNames := names;
    }

    /**
     * `getDataItem`: the first item with the given index. Although annotated
     * as nullable, the source wraps the search in requireNonNull, so a missing
     * index ends in a NullPointerException: the Failure case.
     */
    function GetDataItem(itemIndex: int): (r: Result<ImportedDataItem, string>)
      reads this
      ensures r.Success? <==> exists k :: 0 <= k < |items| && items[k].itemIndex == itemIndex
      ensures r.Success? ==>
        (exists k :: 0 <= k < |items| && items[k] == r.value && r.value.itemIndex == itemIndex &&
          (forall j :: 0 <= j < k ==> items[j].itemIndex != itemIndex))
    {
      match FirstWithIndex(items, itemIndex)
      case Some(k) => Success(items[k])
      case None => Failure("NullPointerException")
    }
  }

  /** The position of the first item carrying `itemIndex`, searched front to back. */
  function FirstWithIndex(items: seq<ImportedDataItem>, itemIndex: int): (r: Option<nat>)
    ensures r.Some? ==>
      (r.value < |items| && items[r.value].itemIndex == itemIndex &&
        (forall j :: 0 <= j < r.value ==> items[j].itemIndex != itemIndex))
    ensures r.None? ==> forall j :: 0 <= j < |items| ==> items[j].itemIndex != itemIndex
  {
    if |items| == 0 then None
    else if items[0].itemIndex == itemIndex then Some(0)
    else match FirstWithIndex(items[1..], itemIndex)
      case Some(k) => Some(k + 1)
      case None => None
  }

  /** Items numbered 1..n, as every extractor produces them, are found by their index. */
  lemma {:induction false} NumberedItemsAreFound(items: seq<ImportedDataItem>, k: nat)
    requires forall j :: 0 <= j < |items| ==> items[j].itemIndex == j + 1
    requires k < |items|
    ensures FirstWithIndex(items, k + 1) == Some(k)
  {
    assert items[k].itemIndex == k + 1;
    var r := FirstWithIndex(items, k + 1);
    assert r.Some?;
    var p := r.value;
    assert items[p].itemIndex == p + 1;
  }
}
