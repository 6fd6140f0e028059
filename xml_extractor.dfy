/**
 * XmlDataExtractor on the element tree the XML parser delivers. A root
 * without text-only children gives one data item per child element; a root
 * with one gives a single item. Inside an element, text-only children
 * become strings, and the other children, grouped by tag, become nested
 * objects or object lists.
 */
module XmlExtractor {
  import opened RawData
  import opened FieldNames

  /**
   * A parsed element: its tag name, its text with surrounding white space
   * removed (`getTextTrim`) and its child elements in document order.
   */
  datatype Element = Element(name: string, text: string, children: seq<Element>)
  {
    /** `isTextOnly`: the content holds no element, only text. */
    predicate IsTextOnly()
    {
      |children| == 0
    }
  }

  /** `anyMatch(Element::isTextOnly)` over a list of elements. */
  function AnyTextOnly(elements: seq<Element>): (r: bool)
    ensures r <==> exists k :: 0 <= k < |elements| && elements[k].IsTextOnly()
  {
    |elements| > 0 && (elements[0].IsTextOnly() || AnyTextOnly(elements[1..]))
  }

  /** `containsSimpleValues`: some child element is text-only. */
  function ContainsSimpleValues(element: Element): (r: bool)
    ensures r <==> exists k :: 0 <= k < |element.children| && element.children[k].IsTextOnly()
  {
    AnyTextOnly(element.children)
  }

  /** The tag names of the elements, in order, repeats included. */
  function NamesOf(elements: seq<Element>): (r: seq<string>)
    ensures |r| == |elements| && forall k :: 0 <= k < |elements| ==> r[k] == elements[k].name
  {
    seq(|elements|, k requires 0 <= k < |elements| => elements[k].name)
  }

  /** The tag names of the children of all the elements, element by element. */
  function AllChildNames(elements: seq<Element>): (r: seq<string>)
    decreases |elements|
  {
    if |elements| == 0 then [] else AllChildNames(elements[..|elements| - 1]) + NamesOf(elements[|elements| - 1].children)
  }

  /** The elements that are not text-only, in order. */
  function NonText(elements: seq<Element>): (r: seq<Element>)
    ensures forall x :: x in r <==> x in elements && !x.IsTextOnly()
    decreases |elements|
  {
    if |elements| == 0 then []
    else
      var last := elements[|elements| - 1];
      assert forall x :: x in elements <==> x in elements[..|elements| - 1] || x == last;
      NonText(elements[..|elements| - 1]) + (if last.IsTextOnly() then [] else [last])
  }

  /** The elements carrying the tag name, in order. */
  function Named(elements: seq<Element>, tag: string): (r: seq<Element>)
    ensures forall x :: x in r ==> x in elements && x.name == tag
    decreases |elements|
  {
    if |elements| == 0 then []
    else
      var last := elements[|elements| - 1];
      Named(elements[..|elements| - 1], tag) + (if last.name == tag then [last] else [])
  }

  /** The tag names occurring among the elements. */
  function TagsOf(elements: seq<Element>): (r: set<string>)
  {
    set x | x in elements :: x.name
  }

  /** The reading of grouping by tag: each tag that occurs, with its elements in order. */
  function Groups(elements: seq<Element>): (r: map<string, seq<Element>>)
    ensures r.Keys == TagsOf(elements)
    ensures forall tag :: tag in r ==> r[tag] == Named(elements, tag)
  {
    map tag | tag in TagsOf(elements) :: Named(elements, tag)
  }

  /** What `groupElementsByTag` yields for a parent with these children. */
  function GroupsOf(children: seq<Element>): (r: map<string, seq<Element>>)
    ensures forall tag, x :: tag in r && x in r[tag] ==> x in children
  {
    Groups(NonText(children))
  }

  /** The raw values the text-only ones among the first `n` children put: a later one of the same name wins. */
  function TextValues(children: seq<Element>, n: nat): (r: map<string, Value>)
    requires n <= |children|
    decreases n
  {
    if n == 0 then map[]
    else
      var child := children[n - 1];
      var values := TextValues(children, n - 1);
      if child.IsTextOnly() then values[child.name := Str(child.text)] else values
  }

  /** `createImportedObject`. */
  function ObjectOf(element: Element): (r: ImportedObject)
    decreases element, 4
  {
    ImportedObject(RawValuesOf(element))
  }

  /** `readRawValues`: the text values, then every group's value under its tag. */
  function RawValuesOf(element: Element): (r: map<string, Value>)
    decreases element, 3
  {
    Overlay(element, TextValues(element.children, |element.children|), GroupsOf(element.children).Keys)
  }

  /**
   * The text values after the groups of the tags in `done` have put their
   * values; the groups' tags are distinct, so the order in which they are
   * visited does not matter.
   */
  function Overlay(element: Element, text: map<string, Value>, done: set<string>): (r: map<string, Value>)
    requires done <= GroupsOf(element.children).Keys
    decreases element, 2
  {
    var groups := GroupsOf(element.children);
    map k | k in text.Keys + (set t | t in done && |groups[t]| > 0) ::
      if k in done && |groups[k]| > 0 then GroupValue(element, groups[k]) else text[k]
  }

  /**
   * The value a group of children of `parent` with one tag gives: a single
   * element with simple values its object, a single element without them
   * the list of its children, several elements their list.
   */
  function GroupValue(parent: Element, group: seq<Element>): (r: Value)
    requires forall x :: x in group ==> x in parent.children
    decreases parent, 1
  {
    if |group| == 1 then
      ChildIsSmaller(parent, group[0]);
      (if ContainsSimpleValues(group[0]) then Object(ObjectOf(group[0]))
       else ObjectList(ObjectsOf(group[0], group[0].children)))
    else ObjectList(ObjectsOf(parent, group))
  }

  /** `createImportedObjectList` on elements that are children of `parent`. */
  function ObjectsOf(parent: Element, elements: seq<Element>): (r: seq<ImportedObject>)
    requires forall x :: x in elements ==> x in parent.children
    decreases parent, 0, |elements|
    ensures |r| == |elements|
  {
    if |elements| == 0 then []
    else
      ChildIsSmaller(parent, elements[|elements| - 1]);
      ObjectsOf(parent, elements[..|elements| - 1]) + [ObjectOf(elements[|elements| - 1])]
  }

  /** The list holds one object per element, in the elements' order. */
  lemma {:induction false} ObjectsOfInOrder(parent: Element, elements: seq<Element>)
    requires forall x :: x in elements ==> x in parent.children
    ensures forall k :: 0 <= k < |elements| ==> ObjectsOf(parent, elements)[k] == ObjectOf(elements[k])
    decreases |elements|
  {
    if |elements| > 0 {
      ObjectsOfInOrder(parent, elements[..|elements| - 1]);
    }
  }

  /** A child element ranks below its parent, which is what makes the reading above terminate. */
  lemma ChildIsSmaller(parent: Element, x: Element)
    requires x in parent.children
    ensures x < parent
  {
    var j :| 0 <= j < |parent.children| && parent.children[j] == x;
  }

  // ---------------------------------------------------------------------
  // Grouping by tag
  // ---------------------------------------------------------------------

  /** A tag has elements exactly when it occurs. */
  lemma {:induction false} NamedIffTag(elements: seq<Element>, tag: string)
    ensures Named(elements, tag) != [] <==> tag in TagsOf(elements)
    decreases |elements|
  {
    if |elements| > 0 {
      var prefix := elements[..|elements| - 1];
      var last := elements[|elements| - 1];
      NamedIffTag(prefix, tag);
      assert elements == prefix + [last];
      assert TagsOf(elements) == TagsOf(prefix) + {last.name};
    }
  }

  /** One more element adds its tag to the tags. */
  lemma TagsSnoc(elements: seq<Element>, x: Element)
    ensures TagsOf(elements + [x]) == TagsOf(elements) + {x.name}
  {
    var longer := elements + [x];
    forall t | t in TagsOf(longer) ensures t in TagsOf(elements) + {x.name} {
      var y :| y in longer && y.name == t;
      if y != x {
        assert y in elements;
      }
    }
    forall t | t in TagsOf(elements) ensures t in TagsOf(longer) {
      var y :| y in elements && y.name == t;
      assert y in longer;
    }
    assert x in longer;
  }

  /** The list of one tag after one more element. */
  lemma NamedSnoc(elements: seq<Element>, x: Element, tag: string)
    ensures Named(elements + [x], tag) == Named(elements, tag) + (if x.name == tag then [x] else [])
  {
    var longer := elements + [x];
    assert longer[..|longer| - 1] == elements;
  }

  /** Putting one more element into its tag's list gives the groups of the longer list. */
  lemma GroupsSnoc(elements: seq<Element>, x: Element)
    ensures Groups(elements + [x]) ==
      Groups(elements)[x.name := (if x.name in Groups(elements) then Groups(elements)[x.name] else []) + [x]]
  {
    var g := Groups(elements);
    var h := Groups(elements + [x]);
    var list := (if x.name in g then g[x.name] else []) + [x];
    TagsSnoc(elements, x);
    NamedIffTag(elements, x.name);
    NamedSnoc(elements, x, x.name);
    assert h[x.name] == list;
    forall tag | tag in h && tag != x.name ensures tag in g && h[tag] == g[tag] {
      NamedSnoc(elements, x, tag);
    }
    MapUpdateByParts(h, g, x.name, list);
  }

  /** A map that agrees with another except at one key, where it holds `v`, is their update. */
  lemma MapUpdateByParts<K, V>(h: map<K, V>, g: map<K, V>, key: K, v: V)
    requires h.Keys == g.Keys + {key} && key in h && h[key] == v
    requires forall k :: k in h && k != key ==> k in g && h[k] == g[k]
    ensures h == g[key := v]
  {
  }

  /** `groupElementsByTag`: each non-text-only child, in order, is added to its tag's list. */
  method GroupElementsByTag(parent: Element) returns (elementMap: map<string, seq<Element>>)
    ensures elementMap == GroupsOf(parent.children)
  {
    var elements := NonText(parent.children);
    elementMap := map[];
    var i := 0;
    while i < |elements|
      invariant 0 <= i <= |elements|
      invariant elementMap == Groups(elements[..i])
    {
      elementMap := AddToGroup(elementMap, elements[i]);
      GroupsStep(elements, i);
      i := i + 1;
    }
    assert elements[..i] == elements;
  }

  /** The body of the `forEach` in `groupElementsByTag`: a new tag gets an empty list, then the element is appended to its tag's list. */
  method AddToGroup(elementMap: map<string, seq<Element>>, element: Element) returns (r: map<string, seq<Element>>)
    ensures r == elementMap[element.name := (if element.name in elementMap then elementMap[element.name] else []) + [element]]
  {
    var name := element.name;
    r := elementMap;
    if name !in r {
      r := r[name := []];
    }
    r := r[name := r[name] + [element]];
  }

  /** `GroupsSnoc` for the prefixes of one list. */
  lemma GroupsStep(elements: seq<Element>, i: nat)
    requires i < |elements|
    ensures var g := Groups(elements[..i]);
      var x := elements[i];
      Groups(elements[..i + 1]) == g[x.name := (if x.name in g then g[x.name] else []) + [x]]
  {
    assert elements[..i + 1] == elements[..i] + [elements[i]];
    GroupsSnoc(elements[..i], elements[i]);
  }

  // ---------------------------------------------------------------------
  // Reading raw values
  // ---------------------------------------------------------------------

  /** One more group's value put into the overlay. */
  lemma OverlayStep(element: Element, text: map<string, Value>, done: set<string>, tag: string)
    requires done <= GroupsOf(element.children).Keys
    requires tag in GroupsOf(element.children) && tag !in done
    ensures var groups := GroupsOf(element.children);
      Overlay(element, text, done + {tag}) ==
        if |groups[tag]| > 0 then Overlay(element, text, done)[tag := GroupValue(element, groups[tag])]
        else Overlay(element, text, done)
  {
  }

  /** `readRawValues`: first the text-only children, then the groups. */
  method ReadRawValues(element: Element) returns (values: map<string, Value>)
    decreases element, 2
    ensures values == RawValuesOf(element)
  {
    var text := ReadTextValues(element.children);
    values := PutGroupValues(element, text);
  }

  /** The first half of `readRawValues`: every text-only child's trimmed text under its tag. */
  method ReadTextValues(children: seq<Element>) returns (values: map<string, Value>)
    ensures values == TextValues(children, |children|)
  {
    values := map[];
    var i := 0;
    while i < |children|
      invariant 0 <= i <= |children|
      invariant values == TextValues(children, i)
    {
      if children[i].IsTextOnly() {
        values := values[children[i].name := Str(children[i].text)];
      }
      i := i + 1;
    }
  }

  /** The second half of `readRawValues`: each group's value, in whatever order the map yields the tags. */
  method PutGroupValues(element: Element, text: map<string, Value>) returns (values: map<string, Value>)
    decreases element, 1
    ensures values == Overlay(element, text, GroupsOf(element.children).Keys)
  {
    values := text;
    var elementsByTag := GroupElementsByTag(element);
    var remaining := elementsByTag.Keys;
    assert Overlay(element, text, {}) == text;
    while remaining != {}
      invariant remaining <= elementsByTag.Keys
      invariant values == Overlay(element, text, elementsByTag.Keys - remaining)
      decreases remaining
    {
      var tagName :| tagName in remaining;
      values := PutGroupValue(element, text, elementsByTag, elementsByTag.Keys - remaining, tagName, values);
      assert elementsByTag.Keys - (remaining - {tagName}) == (elementsByTag.Keys - remaining) + {tagName};
      remaining := remaining - {tagName};
    }
    assert elementsByTag.Keys - remaining == elementsByTag.Keys;
  }

  /** One pass of the `forEach` over the groups: the group of `tagName` puts its value. */
  method PutGroupValue(element: Element, text: map<string, Value>, elementsByTag: map<string, seq<Element>>,
                       done: set<string>, tagName: string, values: map<string, Value>) returns (r: map<string, Value>)
    requires elementsByTag == GroupsOf(element.children)
    requires done <= elementsByTag.Keys && tagName in elementsByTag && tagName !in done
    requires values == Overlay(element, text, done)
    decreases element, 0, 2
    ensures r == Overlay(element, text, done + {tagName})
  {
    OverlayStep(element, text, done, tagName);
    r := values;
    if |elementsByTag[tagName]| > 0 {
      var v := ReadGroupValue(element, elementsByTag[tagName]);
      r := r[tagName := v];
    }
  }

  /** The value one tag's group of elements gives in `readRawValues`. */
  method ReadGroupValue(parent: Element, elements: seq<Element>) returns (v: Value)
    requires |elements| > 0 && forall x :: x in elements ==> x in parent.children
    decreases parent, 0, 1
    ensures v == GroupValue(parent, elements)
  {
    if |elements| == 1 {
      var single := elements[0];
      ChildIsSmaller(parent, single);
      if ContainsSimpleValues(single) {
        var o := CreateImportedObject(single);
        v := Object(o);
      } else {
        var list := CreateImportedObjectList(single, single.children);
        v := ObjectList(list);
      }
    } else {
      var list := CreateImportedObjectList(parent, elements);
      v := ObjectList(list);
    }
  }

  method CreateImportedObject(element: Element) returns (o: ImportedObject)
    decreases element, 3
    ensures o == ObjectOf(element)
  {
    var values := ReadRawValues(element);
    o := ImportedObject(values);
  }

  /** `createImportedObjectList`; `parent` is the element whose children these are. */
  method CreateImportedObjectList(ghost parent: Element, elements: seq<Element>) returns (objects: seq<ImportedObject>)
    requires forall x :: x in elements ==> x in parent.children
    decreases parent, 0, 0
    ensures objects == ObjectsOf(parent, elements)
  {
    objects := [];
    var i := 0;
    while i < |elements|
      invariant 0 <= i <= |elements|
      invariant objects == ObjectsOf(parent, elements[..i])
    {
      assert elements[..i + 1][..i] == elements[..i];
      ChildIsSmaller(parent, elements[i]);
      var o := CreateImportedObject(elements[i]);
      objects := objects + [o];
      i := i + 1;
    }
    assert elements[..i] == elements;
  }

  /** `createImportedDataItem`: the element's raw values under the given index. */
  method CreateImportedDataItem(element: Element, itemIndex: int) returns (item: ImportedDataItem)
    ensures item == ImportedDataItem(RawValuesOf(element), itemIndex)
  {
    item := EmptyItem().SetItemIndex(itemIndex);
    var values := ReadRawValues(element);
    item := item.SetRawValues(values);
  }

  // ---------------------------------------------------------------------
  // What the raw values of an element hold
  // ---------------------------------------------------------------------

  /** A name is a text value's key exactly when a text-only child among the first `n` carries it. */
  lemma {:induction false} TextValuesKeys(children: seq<Element>, n: nat)
    requires n <= |children|
    ensures forall name :: name in TextValues(children, n) <==>
      exists k :: 0 <= k < n && children[k].IsTextOnly() && children[k].name == name
    decreases n
  {
    if n > 0 {
      TextValuesKeys(children, n - 1);
    }
  }

  /** The text value under a name comes from the last text-only child carrying it. */
  lemma {:induction false} TextValuesLastWins(children: seq<Element>, n: nat, k: nat)
    requires k < n <= |children| && children[k].IsTextOnly()
    requires forall j :: k < j < n && children[j].IsTextOnly() ==> children[j].name != children[k].name
    ensures children[k].name in TextValues(children, n)
    ensures TextValues(children, n)[children[k].name] == Str(children[k].text)
    decreases n
  {
    if k < n - 1 {
      TextValuesLastWins(children, n - 1, k);
    }
  }

  /** Where a raw value of an element comes from: its tag's group when it has one, else the text values. */
  lemma RawValuesAt(element: Element, name: string)
    ensures var groups := GroupsOf(element.children);
      var text := TextValues(element.children, |element.children|);
      (name in RawValuesOf(element) <==> name in text || (name in groups && |groups[name]| > 0)) &&
      (name in groups && |groups[name]| > 0 ==> RawValuesOf(element)[name] == GroupValue(element, groups[name])) &&
      (name in text && !(name in groups && |groups[name]| > 0) ==> RawValuesOf(element)[name] == text[name])
  {
  }

  /** A tag has a group exactly when a child that is not text-only carries it; the group is never empty. */
  lemma GroupsOfAt(children: seq<Element>, name: string)
    ensures name in GroupsOf(children) <==>
      exists k :: 0 <= k < |children| && !children[k].IsTextOnly() && children[k].name == name
    ensures name in GroupsOf(children) ==>
      GroupsOf(children)[name] == Named(NonText(children), name) && |GroupsOf(children)[name]| > 0
  {
    NamedIffTag(NonText(children), name);
    if name in GroupsOf(children) {
      var x :| x in NonText(children) && x.name == name;
      var k :| 0 <= k < |children| && children[k] == x;
    }
    if exists k :: 0 <= k < |children| && !children[k].IsTextOnly() && children[k].name == name {
      var k :| 0 <= k < |children| && !children[k].IsTextOnly() && children[k].name == name;
      assert children[k] in NonText(children);
    }
  }

  /** A name is a key of an element's raw values exactly when some child carries it. */
  lemma RawValuesKeys(element: Element, name: string)
    ensures name in RawValuesOf(element) <==>
      exists k :: 0 <= k < |element.children| && element.children[k].name == name
  {
    var children := element.children;
    TextValuesKeys(children, |children|);
    RawValuesAt(element, name);
    GroupsOfAt(children, name);
  }

  /**
   * A tag carried by some child that is not text-only takes its value from
   * all such children, in document order, whatever text a text-only child
   * of that tag holds.
   */
  lemma NestedValueWins(element: Element, tag: string)
    requires exists k :: 0 <= k < |element.children| && !element.children[k].IsTextOnly() && element.children[k].name == tag
    ensures var group := Named(NonText(element.children), tag);
      |group| >= 1 && tag in RawValuesOf(element) &&
      RawValuesOf(element)[tag] ==
        if |group| == 1 then
          (if ContainsSimpleValues(group[0]) then Object(ObjectOf(group[0]))
           else ObjectList(ObjectsOf(group[0], group[0].children)))
        else ObjectList(ObjectsOf(element, group))
  {
    RawValuesAt(element, tag);
    GroupsOfAt(element.children, tag);
  }

  /**
   * A text-only child gives its text when no later text-only child and no
   * other child carries its tag.
   */
  lemma TextValueStands(element: Element, k: nat)
    requires k < |element.children| && element.children[k].IsTextOnly()
    requires forall j :: k < j < |element.children| && element.children[j].IsTextOnly() ==>
      element.children[j].name != element.children[k].name
    requires forall j :: 0 <= j < |element.children| && !element.children[j].IsTextOnly() ==>
      element.children[j].name != element.children[k].name
    ensures element.children[k].name in RawValuesOf(element)
    ensures RawValuesOf(element)[element.children[k].name] == Str(element.children[k].text)
  {
    var children := element.children;
    TextValuesLastWins(children, |children|, k);
    RawValuesAt(element, children[k].name);
    GroupsOfAt(children, children[k].name);
  }

  // ---------------------------------------------------------------------
  // getImportedData
  // ---------------------------------------------------------------------

  /**
   * `getImportedData`: without text-only children, every child element is
   * an item, numbered from 1, and the field names are the grandchildren's
   * tags without repeats; with one, the root is the single item, numbered
   * 1, and the field names are its children's tags without repeats.
   */
  method GetImportedData(root: Element) returns (data: ImportedData)
    ensures fresh(data)
    ensures !ContainsSimpleValues(root) ==>
      |data.items| == |root.children| &&
      (forall k :: 0 <= k < |root.children| ==>
         data.items[k] == ImportedDataItem(RawValuesOf(root.children[k]), k + 1)) &&
      data.fieldNames == FirstSeen([], AllChildNames(root.children))
    ensures ContainsSimpleValues(root) ==>
      data.items == [ImportedDataItem(RawValuesOf(root), 1)] &&
      data.fieldNames == FirstSeen([], NamesOf(root.children))
  {
    data := new ImportedData();
    if !ContainsSimpleValues(root) {
      var elements := root.children;
      if |elements| > 0 {
        ReadElementItems(data, elements);
      }
      AddNewIsFirstSeen([], AllChildNames(elements));
    } else {
      var item := CreateImportedDataItem(root, 1);
      data.AddItem(item);
      data.SetFieldNames(AddNew([], NamesOf(root.children)));
      AddNewIsFirstSeen([], NamesOf(root.children));
    }
  }

  /** The branch of `getImportedData` that makes an item of each child element. */
  method ReadElementItems(data: ImportedData, elements: seq<Element>)
    requires data.items == [] && data.fieldNames == []
    modifies data
    ensures |data.items| == |elements|
    ensures forall k :: 0 <= k < |elements| ==> data.items[k] == ImportedDataItem(RawValuesOf(elements[k]), k + 1)
    ensures data.fieldNames == AddNew([], AllChildNames(elements))
  {
    var itemIndex := 1;
    var fieldNames: seq<string> := [];
    var i := 0;
    while i < |elements|
      invariant 0 <= i <= |elements| && itemIndex == i + 1
      invariant |data.items| == i
      invariant forall k :: 0 <= k < i ==> data.items[k] == ImportedDataItem(RawValuesOf(elements[k]), k + 1)
      invariant fieldNames == AddNew([], AllChildNames(elements[..i]))
    {
      var item := CreateImportedDataItem(elements[i], itemIndex);
      data.AddItem(item);
      itemIndex := itemIndex + 1;
      fieldNames := AddChildNames(fieldNames, elements, i);
      i := i + 1;
    }
    assert elements[..i] == elements;
    data.SetFieldNames(fieldNames);
  }

  /** The inner loop of that branch: the tags of the `i`-th element's children not yet collected. */
  method AddChildNames(fieldNames: seq<string>, elements: seq<Element>, i: nat) returns (r: seq<string>)
    requires i < |elements| && fieldNames == AddNew([], AllChildNames(elements[..i]))
    ensures r == AddNew([], AllChildNames(elements[..i + 1]))
  {
    var names := NamesOf(elements[i].children);
    assert elements[..i + 1][..i] == elements[..i];
    AddNewConcat([], AllChildNames(elements[..i]), names);
    r := AddFieldNames(fieldNames, names);
  }

  /** The field names of either branch name every tag they list once. */
  lemma ItemFieldNames(names: seq<string>)
    ensures NoDuplicates(FirstSeen([], names))
    ensures forall n :: n in FirstSeen([], names) <==> n in names
  {
    AddNewIsFirstSeen([], names);
    AddNewNoDuplicates([], names);
    AddNewMembers([], names);
  }
}
