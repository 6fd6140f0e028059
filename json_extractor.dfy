/**
 * JsonDataExtractor on the node tree the JSON parser delivers: an array
 * root gives one data item per element, an object root one item, and every
 * field value becomes a raw value (null, text, nested object or object list).
 */
module JsonExtractor {
  import opened RawData
  import opened FieldNames

  /**
   * A parsed JSON node; a scalar (string, number, boolean) carries the text
   * `asText` gives for it. An object's fields are in document order; the list
   * may repeat a name, which a Jackson ObjectNode never does.
   */
  datatype JsonNode =
    | JsonNull
    | JsonScalar(text: string)
    | JsonObject(fields: seq<JsonField>)
    | JsonArray(elements: seq<JsonNode>)

  datatype JsonField = JsonField(name: string, value: JsonNode)

  /** `fields()`: the fields of an object node; any other node has none. */
  function FieldsOf(node: JsonNode): (r: seq<JsonField>)
  {
    if node.JsonObject? then node.fields else []
  }

  /** `elements()` of an array node. */
  function ElementsOf(node: JsonNode): (r: seq<JsonNode>)
  {
    if node.JsonArray? then node.elements else []
  }

  /** `fieldNames()`. */
  function NamesOf(fields: seq<JsonField>): (r: seq<string>)
    ensures |r| == |fields| && forall k :: 0 <= k < |fields| ==> r[k] == fields[k].name
  {
    seq(|fields|, k requires 0 <= k < |fields| => fields[k].name)
  }

  /** The raw value a field's node becomes. */
  function NodeValue(node: JsonNode): (r: Value)
    decreases node, 2
  {
    match node
    case JsonNull => Null
    case JsonScalar(text) => Str(text)
    case JsonObject(_) => Object(ObjectOf(node))
    case JsonArray(elements) => ObjectList(ObjectsOf(node, |elements|))
  }

  /** `createImportedObject`. */
  function ObjectOf(node: JsonNode): (r: ImportedObject)
    decreases node, 1
  {
    ImportedObject(FieldValues(node, |FieldsOf(node)|))
  }

  /** The raw values after `readRawValues` has put the first `n` fields: a later field of the same name wins. */
  function FieldValues(node: JsonNode, n: nat): (r: map<string, Value>)
    requires n <= |FieldsOf(node)|
    decreases node, 0, n
  {
    if n == 0 then map[]
    else
      var field := FieldsOf(node)[n - 1];
      FieldValues(node, n - 1)[field.name := NodeValue(field.value)]
  }

  /** `createImportedObjectList` on the first `n` elements of an array node. */
  function ObjectsOf(node: JsonNode, n: nat): (r: seq<ImportedObject>)
    requires n <= |ElementsOf(node)|
    decreases node, 0, n
    ensures |r| == n
  {
    if n == 0 then [] else ObjectsOf(node, n - 1) + [ObjectOf(ElementsOf(node)[n - 1])]
  }

  /** The field names of all the nodes, in order, repeats included. */
  function AllFieldNames(nodes: seq<JsonNode>): (r: seq<string>)
    decreases |nodes|
  {
    if |nodes| == 0 then [] else AllFieldNames(nodes[..|nodes| - 1]) + NamesOf(FieldsOf(nodes[|nodes| - 1]))
  }

  /** A name is a key exactly when some of the first `n` fields carries it. */
  lemma {:induction false} FieldValuesKeys(node: JsonNode, fields: seq<JsonField>, n: nat)
    requires fields == FieldsOf(node) && n <= |fields|
    ensures forall name :: name in FieldValues(node, n) <==> exists k :: 0 <= k < n && fields[k].name == name
    decreases n
  {
    if n > 0 {
      FieldValuesKeys(node, fields, n - 1);
    }
  }

  /** The value under a name comes from the last field carrying it. */
  lemma {:induction false} FieldValuesLastWins(node: JsonNode, fields: seq<JsonField>, n: nat, k: nat)
    requires fields == FieldsOf(node) && k < n <= |fields|
    requires forall j :: k < j < n ==> fields[j].name != fields[k].name
    ensures fields[k].name in FieldValues(node, n)
    ensures FieldValues(node, n)[fields[k].name] == NodeValue(fields[k].value)
    decreases n
  {
    if k < n - 1 {
      FieldValuesLastWins(node, fields, n - 1, k);
    }
  }

  /** `readRawValues`: the fields in order, each put under its name. */
  method ReadRawValues(node: JsonNode) returns (values: map<string, Value>)
    decreases node, 1
    ensures values == FieldValues(node, |FieldsOf(node)|)
  {
    var fields := FieldsOf(node);
    values := map[];
    var i := 0;
    while i < |fields|
      invariant 0 <= i <= |fields|
      invariant values == FieldValues(node, i)
    {
      var child := fields[i].value;
      var rawValue: Value;
      if child.JsonNull? {
        rawValue := Null;
      } else if child.JsonObject? {
        var o := CreateImportedObject(child);
        rawValue := Object(o);
      } else if child.JsonArray? {
        var list := CreateImportedObjectList(child);
        rawValue := ObjectList(list);
      } else {
        rawValue := Str(child.text);
      }
      values := values[fields[i].name := rawValue];
      i := i + 1;
    }
  }

  method CreateImportedObject(node: JsonNode) returns (o: ImportedObject)
    decreases node, 2
    ensures o == ObjectOf(node)
  {
    var values := ReadRawValues(node);
    o := ImportedObject(values);
  }

  method CreateImportedObjectList(node: JsonNode) returns (objects: seq<ImportedObject>)
    requires node.JsonArray?
    decreases node, 2
    ensures objects == ObjectsOf(node, |node.elements|)
  {
    objects := [];
    var i := 0;
    while i < |node.elements|
      invariant 0 <= i <= |node.elements|
      invariant objects == ObjectsOf(node, i)
    {
      var o := CreateImportedObject(node.elements[i]);
      objects := objects + [o];
      i := i + 1;
    }
  }

  /** `createImportedDataItem`: the node's raw values under the given index. */
  method CreateImportedDataItem(node: JsonNode, itemIndex: int) returns (item: ImportedDataItem)
    ensures item.itemIndex == itemIndex && item.rawValues == ObjectOf(node).rawValues
  {
    var values := ReadRawValues(node);
    item := EmptyItem().SetItemIndex(itemIndex).SetRawValues(values);
  }

  /**
   * `getImportedData`: an array root gives the items 1..n in element order
   * and the union of the elements' field names; an object root one item
   * with index 1 and its own field names; any other root nothing.
   */
  method GetImportedData(root: JsonNode) returns (data: ImportedData)
    ensures fresh(data)
    ensures root.JsonArray? ==>
      |data.items| == |root.elements| &&
      (forall k :: 0 <= k < |root.elements| ==>
         data.items[k] == ImportedDataItem(ObjectOf(root.elements[k]).rawValues, k + 1)) &&
      data.fieldNames == AddNew([], AllFieldNames(root.elements))
    ensures root.JsonObject? ==>
      data.items == [ImportedDataItem(ObjectOf(root).rawValues, 1)] && data.fieldNames == NamesOf(root.fields)
    ensures !root.JsonArray? && !root.JsonObject? ==> data.items == [] && data.fieldNames == []
  {
    data := new ImportedData();
    if root.JsonArray? {
      ReadArrayRoot(data, root.elements);
    } else if root.JsonObject? {
      ReadObjectRoot(data, root);
    }
  }

  /** The array branch of `getImportedData`. */
  method ReadArrayRoot(data: ImportedData, elements: seq<JsonNode>)
    requires data.items == [] && data.fieldNames == []
    modifies data
    ensures |data.items| == |elements|
    ensures forall k :: 0 <= k < |elements| ==> data.items[k] == ImportedDataItem(ObjectOf(elements[k]).rawValues, k + 1)
    ensures data.fieldNames == AddNew([], AllFieldNames(elements))
  {
    var itemIndex := 1;
    var fieldNames: seq<string> := [];
    var i := 0;
    while i < |elements|
      invariant 0 <= i <= |elements| && itemIndex == i + 1
      invariant |data.items| == i
      invariant forall k :: 0 <= k < i ==> data.items[k] == ImportedDataItem(ObjectOf(elements[k]).rawValues, k + 1)
      invariant fieldNames == AddNew([], AllFieldNames(elements[..i]))
    {
      var item := CreateImportedDataItem(elements[i], itemIndex);
      data.AddItem(item);
      itemIndex := itemIndex + 1;
      var names := NamesOf(FieldsOf(elements[i]));
      assert elements[..i + 1][..i] == elements[..i];
      AddNewConcat([], AllFieldNames(elements[..i]), names);
      fieldNames := AddFieldNames(fieldNames, names);
      i := i + 1;
    }
    assert elements[..i] == elements;
    data.SetFieldNames(fieldNames);
  }

  /** The object branch of `getImportedData`. */
  method ReadObjectRoot(data: ImportedData, root: JsonNode)
    requires root.JsonObject? && data.items == [] && data.fieldNames == []
    modifies data
    ensures data.items == [ImportedDataItem(ObjectOf(root).rawValues, 1)] && data.fieldNames == NamesOf(root.fields)
  {
    var names := NamesOf(root.fields);
    var i := 0;
    while i < |names|
      invariant 0 <= i <= |names|
      invariant data.fieldNames == names[..i] && data.items == []
    {
      assert names[..i + 1] == names[..i] + [names[i]];
      data.AddFieldName(names[i]);
      i := i + 1;
    }
    assert names[..i] == names;
    var item := CreateImportedDataItem(root, 1);
    data.AddItem(item);
  }

  /** The field names of an array root hold every element's field name once. */
  lemma ArrayFieldNames(elements: seq<JsonNode>)
    ensures var names := AddNew([], AllFieldNames(elements));
      NoDuplicates(names) &&
      (forall n :: n in names <==> n in AllFieldNames(elements)) &&
      names == FirstSeen([], AllFieldNames(elements))
  {
    AddNewNoDuplicates([], AllFieldNames(elements));
    AddNewMembers([], AllFieldNames(elements));
    AddNewIsFirstSeen([], AllFieldNames(elements));
  }
}
