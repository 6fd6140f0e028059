/**
 * The builder of the `model.configuration` import configuration
 * (builder/ImportConfigurationBuilder.java). Mappings are kept in a table
 * keyed by property name; the table's value order is the order in which the
 * keys were first inserted.
 */
module ModelBuilder {
  import opened Wrappers
  import opened Policies
  import opened ModelConfiguration

  /** Split a property path at every '.', keeping empty segments. */
  function SplitPath(path: string): (r: seq<string>)
    ensures |r| >= 1
    ensures forall i :: 0 <= i < |r| ==> '.' !in r[i]
  {
    if |path| == 0 then [""]
    else
      var rest := SplitPath(path[1..]);
      if path[0] == '.' then [""] + rest
      else [[path[0]] + rest[0]] + rest[1..]
  }

  /** The segments of a path written back with a dot between each pair. */
  function JoinPath(segments: seq<string>): string
    requires |segments| >= 1
  {
    if |segments| == 1 then segments[0] else segments[0] + "." + JoinPath(segments[1..])
  }

  /** Splitting loses nothing: joining the segments of any path gives the path back. */
  lemma {:induction false} SplitPathJoins(path: string)
    ensures JoinPath(SplitPath(path)) == path
  {
    if |path| > 0 {
      var rest := SplitPath(path[1..]);
      SplitPathJoins(path[1..]);
      if path[0] == '.' {
        assert SplitPath(path)[1..] == rest;
      } else {
        var r := SplitPath(path);
        assert r[0] == [path[0]] + rest[0] && r[1..] == rest[1..];
        if |rest| > 1 {
          assert JoinPath(rest) == rest[0] + "." + JoinPath(rest[1..]);
        }
        assert JoinPath(r) == [path[0]] + JoinPath(rest);
        assert [path[0]] + path[1..] == path;
      }
    }
  }

  /** A path joined from segments without dots splits back into those segments. */
  lemma {:induction false} SplitJoinRoundTrip(first: string, second: string)
    requires '.' !in first && '.' !in second
    ensures SplitPath(first + "." + second) == [first, second]
  {
    if |first| == 0 {
      assert first + "." + second == ['.'] + second;
      SplitWithoutDot(second);
    } else {
      assert (first + "." + second)[1..] == first[1..] + "." + second;
      SplitJoinRoundTrip(first[1..], second);
      assert [first[0]] + first[1..] == first;
    }
  }

  lemma {:induction false} SplitWithoutDot(s: string)
    requires '.' !in s
    ensures SplitPath(s) == [s]
  {
    if |s| > 0 {
      SplitWithoutDot(s[1..]);
      assert [s[0]] + s[1..] == s;
    }
  }

  /** The HashMap of the builder: entries by key, and the keys in first-insertion order. */
  datatype MappingTable = MappingTable(keys: seq<string>, entries: map<string, PropertyMapping>)
  {
    ghost predicate Valid()
    {
      (forall k :: k in entries <==> k in keys) &&
      (forall i, j :: 0 <= i < j < |keys| ==> keys[i] != keys[j]) &&
      (forall k :: k in entries ==> entries[k].propertyName == k)
    }

    /** `put`: the key now maps to the given mapping; the key order grows only for a new key. */
    function Put(key: string, m: PropertyMapping): (r: MappingTable)
      requires Valid() && m.propertyName == key
      ensures r.Valid()
      ensures r.entries == entries[key := m]
      ensures key in entries ==> r.keys == keys
      ensures key !in entries ==> r.keys == keys + [key]
    {
      if key in entries then MappingTable(keys, entries[key := m])
      else MappingTable(keys + [key], entries[key := m])
    }

    /** `values()`: one mapping per key, in key order. */
    function Values(): (r: seq<PropertyMapping>)
      requires Valid()
      ensures |r| == |keys|
      ensures forall i :: 0 <= i < |r| ==> r[i] == entries[keys[i]]
    {
      seq(|keys|, i requires 0 <= i < |keys| => entries[keys[i]])
    }
  }

  function EmptyTable(): (r: MappingTable)
    ensures r.Valid() && r.keys == [] && r.entries == map[]
  {
    MappingTable([], map[])
  }

  /** Whatever is put, the values carry each property name at most once. */
  lemma ValuesHaveDistinctNames(t: MappingTable)
    requires t.Valid()
    ensures forall i, j :: 0 <= i < j < |t.Values()| ==> t.Values()[i].propertyName != t.Values()[j].propertyName
  {
  }

  /** Putting under a registered name replaces that mapping in place: same length, same position. */
  lemma PutReplacesInPlace(t: MappingTable, i: nat, m: PropertyMapping)
    requires t.Valid() && i < |t.keys| && m.propertyName == t.keys[i]
    ensures t.Put(t.keys[i], m).Values() == t.Values()[i := m]
  {
    var r := t.Put(t.keys[i], m);
    assert |r.Values()| == |t.Values()[i := m]|;
    forall j | 0 <= j < |r.Values()|
      ensures r.Values()[j] == t.Values()[i := m][j]
    {
      if j != i {
        assert t.keys[j] != t.keys[i];
      }
    }
  }

  /** Putting a new name adds its mapping at the end. */
  lemma PutNewAppends(t: MappingTable, m: PropertyMapping)
    requires t.Valid() && m.propertyName !in t.entries
    ensures t.Put(m.propertyName, m).Values() == t.Values() + [m]
  {
    var r := t.Put(m.propertyName, m);
    assert |r.Values()| == |t.Values() + [m]|;
    forall j | 0 <= j < |r.Values()|
      ensures r.Values()[j] == (t.Values() + [m])[j]
    {
      if j < |t.keys| {
        assert t.keys[j] in t.entries;
      }
    }
  }

  /**
   * `addAssociationPropertyMapping` on the table: for a path of exactly two
   * segments, a simple child is added to whatever is registered under the base
   * name, or to a fresh association mapping with the given policy.
   */
  function AddAssociation(t: MappingTable, path: string, fieldName: Option<string>,
                          policy: Option<ReferenceEntityPolicy>): (r: MappingTable)
    requires t.Valid()
    ensures r.Valid()
    ensures |SplitPath(path)| != 2 ==> r == t
  {
    var properties := SplitPath(path);
    if |properties| == 2 then
      var base := properties[0];
      var registered := if base in t.entries then t.entries[base] else NewAssociationMapping(base, None, policy);
      t.Put(base, registered.AddSimplePropertyMapping(properties[1], fieldName))
    else t
  }

  /** A first call for a base name registers an association with the call's policy and one child. */
  lemma FirstAssociationCall(t: MappingTable, base: string, child: string, fieldName: Option<string>,
                             policy: Option<ReferenceEntityPolicy>)
    requires t.Valid() && '.' !in base && '.' !in child && base !in t.entries
    ensures var r := AddAssociation(t, base + "." + child, fieldName, policy);
      base in r.entries && r.entries[base].isAssociation &&
      r.entries[base].referenceEntityPolicy == policy &&
      r.entries[base].fieldName.None? &&
      r.entries[base].propertyMappings == [NewPropertyMapping(child, fieldName)]
  {
    SplitJoinRoundTrip(base, child);
  }

  /** A later call for a registered base name appends one child and keeps everything else, policy included. */
  lemma LaterAssociationCall(t: MappingTable, base: string, child: string, fieldName: Option<string>,
                             policy: Option<ReferenceEntityPolicy>)
    requires t.Valid() && '.' !in base && '.' !in child && base in t.entries
    ensures var r := AddAssociation(t, base + "." + child, fieldName, policy);
      r.keys == t.keys && base in r.entries &&
      r.entries[base] == t.entries[base].AddSimplePropertyMapping(child, fieldName) &&
      r.entries[base].referenceEntityPolicy == t.entries[base].referenceEntityPolicy &&
      (forall k :: k in t.entries && k != base ==> r.entries[k] == t.entries[k])
  {
    SplitJoinRoundTrip(base, child);
  }

  /** A name chosen by the class when it resolves, else the string given. */
  function EntityMetaClassName(entityClass: Option<string>, entityMetaClass: Option<string>,
                               findClass: string -> Option<string>): (r: Option<string>)
    ensures entityClass.Some? && findClass(entityClass.value).Some? ==> r == findClass(entityClass.value)
    ensures entityClass.None? || findClass(entityClass.value).None? ==> r == entityMetaClass
  {
    if entityClass.Some? && findClass(entityClass.value).Some? then findClass(entityClass.value)
    else entityMetaClass
  }

  class ImportConfigurationBuilder {
    var name: Option<string>
    var code: string
    var mappings: MappingTable
    var transactionStrategy: Option<ImportTransactionStrategy>
    var entityMetaClass: Option<string>
    /** The Java class given to the second constructor, by name. */
    var entityClass: Option<string>
    var inputDataFormat: Option<string>
    var dateFormat: Option<string>
    var booleanTrueValue: Option<string>
    var booleanFalseValue: Option<string>
    var fileCharset: Option<string>
    var preImportPredicate: Option<nat>
    var uniqueEntityConfigurations: seq<UniqueEntityConfiguration>

    ghost predicate Valid()
      reads this
    {
      mappings.Valid()
    }

    constructor ForMetaClass(entityMetaClass: Option<string>, code: string)
      ensures Valid()
      ensures this.entityMetaClass == entityMetaClass && entityClass.None? && this.code == code
      ensures mappings == EmptyTable() && uniqueEntityConfigurations == [] && fileCharset == Some(UTF8)
      ensures name.None? && transactionStrategy.None? && inputDataFormat.None? && dateFormat.None?
      ensures booleanTrueValue.None? && booleanFalseValue.None? && preImportPredicate.None?
    {
      this.entityMetaClass := entityMetaClass;
      this.code := code;
      entityClass := None;
      name := None;
      mappings := EmptyTable();
      transactionStrategy := None;
      inputDataFormat := None;
      dateFormat := None;
      booleanTrueValue := None;
      booleanFalseValue := None;
      fileCharset := Some(UTF8);
      preImportPredicate := None;
      uniqueEntityConfigurations := [];
    }

    constructor ForClass(entityClass: string, code: string)
      ensures Valid()
      ensures this.entityClass == Some(entityClass) && entityMetaClass.None? && this.code == code
      ensures mappings == EmptyTable() && uniqueEntityConfigurations == [] && fileCharset == Some(UTF8)
      ensures name.None? && transactionStrategy.None? && inputDataFormat.None? && dateFormat.None?
      ensures booleanTrueValue.None? && booleanFalseValue.None? && preImportPredicate.None?
    {
      this.entityClass := Some(entityClass);
      this.code := code;
      entityMetaClass := None;
      name := None;
      mappings := EmptyTable();
      transactionStrategy := None;
      inputDataFormat := None;
      dateFormat := None;
      booleanTrueValue := None;
      booleanFalseValue := None;
      fileCharset := Some(UTF8);
      preImportPredicate := None;
      uniqueEntityConfigurations := [];
    }

    method WithName(v: Option<string>) modifies this`name ensures name == v { name := v; }
    method WithFileCharset(v: Option<string>) modifies this`fileCharset ensures fileCharset == v { fileCharset := v; }
    method WithTransactionStrategy(v: Option<ImportTransactionStrategy>)
      modifies this`transactionStrategy ensures transactionStrategy == v { transactionStrategy := v; }
    method WithDateFormat(v: Option<string>) modifies this`dateFormat ensures dateFormat == v { dateFormat := v; }
    method WithInputDataFormat(v: Option<string>) modifies this`inputDataFormat ensures inputDataFormat == v { inputDataFormat := v; }
    method WithPreImportPredicate(v: Option<nat>)
      modifies this`preImportPredicate ensures preImportPredicate == v { preImportPredicate := v; }

    /** Both literals are set together. */
    method WithBooleanFormats(trueValue: Option<string>, falseValue: Option<string>)
      modifies this`booleanTrueValue, this`booleanFalseValue
      ensures booleanTrueValue == trueValue && booleanFalseValue == falseValue
    {
      booleanTrueValue := trueValue;
      booleanFalseValue := falseValue;
    }

    /** A simple mapping registered under its property name, replacing any earlier one. */
    method AddSimplePropertyMapping(propertyName: string, fieldName: Option<string>)
      requires Valid()
      modifies this`mappings
      ensures Valid()
      ensures mappings == old(mappings).Put(propertyName, NewPropertyMapping(propertyName, fieldName))
    {
      mappings := mappings.Put(propertyName, NewPropertyMapping(propertyName, fieldName));
    }

    /** A simple mapping with a custom value function, registered under its property name. */
    method AddCustomPropertyMapping(propertyName: string, fieldName: Option<string>, customValueFunction: Option<nat>)
      requires Valid()
      modifies this`mappings
      ensures Valid()
      ensures mappings == old(mappings).Put(propertyName,
        NewPropertyMapping(propertyName, fieldName).(customValueFunction := customValueFunction))
    {
      mappings := mappings.Put(propertyName, NewPropertyMapping(propertyName, fieldName).(customValueFunction := customValueFunction));
    }

    /** A given mapping registered under its own property name. */
    method AddPropertyMapping(m: PropertyMapping)
      requires Valid()
      modifies this`mappings
      ensures Valid()
      ensures mappings == old(mappings).Put(m.propertyName, m)
    {
      mappings := mappings.Put(m.propertyName, m);
    }

    method AddAssociationPropertyMapping(propertyPath: string, fieldName: Option<string>,
                                         policy: Option<ReferenceEntityPolicy>)
      requires Valid()
      modifies this`mappings
      ensures Valid()
      ensures mappings == AddAssociation(old(mappings), propertyPath, fieldName, policy)
    {
      mappings := AddAssociation(mappings, propertyPath, fieldName, policy);
    }

    /** One configuration appended, in call order. */
    method AddUniqueEntityConfiguration(policy: Option<DuplicateEntityPolicy>, properties: seq<string>)
      modifies this`uniqueEntityConfigurations
      ensures uniqueEntityConfigurations == old(uniqueEntityConfigurations) + [UniqueEntityConfiguration(properties, policy)]
    {
      uniqueEntityConfigurations := uniqueEntityConfigurations + [UniqueEntityConfiguration(properties, policy)];
    }

    function GetEntityMetaClassName(findClass: string -> Option<string>): (r: Option<string>)
      reads this
      ensures r == EntityMetaClassName(entityClass, entityMetaClass, findClass)
    {
      EntityMetaClassName(entityClass, entityMetaClass, findClass)
    }

    /**
     * A fresh configuration carrying every builder field; its mappings are
     * the table's values, one per property name.
     */
    method Build(findClass: string -> Option<string>) returns (c: ImportConfiguration)
      requires Valid()
      ensures fresh(c)
      ensures c.entityMetaClass == GetEntityMetaClassName(findClass) && c.code == code
      ensures c.dateFormat == dateFormat && c.booleanTrueValue == booleanTrueValue
      ensures c.booleanFalseValue == booleanFalseValue && c.name == name
      ensures c.GetTransactionStrategy() == transactionStrategy && c.inputDataFormat == inputDataFormat
      ensures c.propertyMappings == mappings.Values() && c.fileCharset == fileCharset
      ensures c.preImportPredicate == preImportPredicate
      ensures c.uniqueEntityConfigurations == uniqueEntityConfigurations
      ensures forall i, j :: 0 <= i < j < |c.propertyMappings| ==>
        c.propertyMappings[i].propertyName != c.propertyMappings[j].propertyName
    {
      c := new ImportConfiguration(GetEntityMetaClassName(findClass), code);
      CopyFormats(c);
      CopyContent(c);
      ValuesHaveDistinctNames(mappings);
    }

    /** The first half of `build`: formats, name and transaction strategy. */
    method CopyFormats(c: ImportConfiguration)
      modifies c`dateFormat, c`booleanTrueValue, c`booleanFalseValue, c`name, c`transactionStrategy
      ensures c.dateFormat == dateFormat && c.booleanTrueValue == booleanTrueValue
      ensures c.booleanFalseValue == booleanFalseValue && c.name == name
      ensures c.GetTransactionStrategy() == transactionStrategy
    {
      c.SetDateFormat(dateFormat);
      c.SetBooleanTrueValue(booleanTrueValue);
      c.SetBooleanFalseValue(booleanFalseValue);
      c.SetName(name);
      c.SetTransactionStrategy(transactionStrategy);
    }

    /** The second half of `build`: input format, mappings, charset, predicate and unique-entity checks. */
    method CopyContent(c: ImportConfiguration)
      requires Valid()
      modifies c`inputDataFormat, c`propertyMappings, c`fileCharset, c`preImportPredicate, c`uniqueEntityConfigurations
      ensures c.inputDataFormat == inputDataFormat && c.propertyMappings == mappings.Values()
      ensures c.fileCharset == fileCharset && c.preImportPredicate == preImportPredicate
      ensures c.uniqueEntityConfigurations == uniqueEntityConfigurations
    {
      c.SetInputDataFormat(inputDataFormat);
      c.SetPropertyMappings(mappings.Values());
      c.SetFileCharset(fileCharset);
      c.SetPreImportPredicate(preImportPredicate);
      c.SetUniqueEntityConfigurations(uniqueEntityConfigurations);
    }
  }
}
