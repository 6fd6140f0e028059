/**
 * CsvDataExtractor on the rows the CSV reader delivers: the first row names
 * the columns, and every later row becomes one data item whose values are
 * stored under the names of their columns.
 */
module CsvExtractor {
  import opened Wrappers
  import opened RawData

  /**
   * The exception `columnNames.get(j)` raises for a row with more values
   * than there are column names: the row's position and the column asked for.
   */
  datatype CsvFailure = ColumnIndexOutOfBounds(row: nat, column: nat)

  /** The raw values after the first `n` values of a row were put under their column names. */
  function RowValues(columnNames: seq<string>, values: seq<string>, n: nat): (r: map<string, Value>)
    requires n <= |values| && n <= |columnNames|
    decreases n
  {
    if n == 0 then map[]
    else RowValues(columnNames, values, n - 1)[columnNames[n - 1] := Str(values[n - 1])]
  }

  /** The position of the first row after the header with more values than the header has names. */
  function FirstLongRow(rows: seq<seq<string>>, from: nat): (r: Option<nat>)
    requires 0 < |rows| && 1 <= from <= |rows|
    decreases |rows| - from
    ensures r.Some? ==>
      (from <= r.value < |rows| && |rows[r.value]| > |rows[0]| &&
        forall i :: from <= i < r.value ==> |rows[i]| <= |rows[0]|)
    ensures r.None? ==> forall i :: from <= i < |rows| ==> |rows[i]| <= |rows[0]|
  {
    if from == |rows| then None
    else if |rows[from]| > |rows[0]| then Some(from)
    else FirstLongRow(rows, from + 1)
  }

  /**
   * `getImportedData`: no rows give empty data; otherwise the first row
   * becomes the field names and row i, for i from 1, the item with index i,
   * unless some row is longer than the header, which ends the extraction
   * with the index error of its first surplus column.
   */
  method GetImportedData(rows: seq<seq<string>>) returns (r: Result<ImportedData, CsvFailure>)
    ensures r.Success? ==> fresh(r.value)
    ensures |rows| == 0 ==> r.Success? && r.value.items == [] && r.value.fieldNames == []
    ensures |rows| > 0 ==> (r.Failure? <==> exists i :: 1 <= i < |rows| && |rows[i]| > |rows[0]|)
    ensures |rows| > 0 && r.Failure? ==>
      FirstLongRow(rows, 1).Some? && r.error == ColumnIndexOutOfBounds(FirstLongRow(rows, 1).value, |rows[0]|)
    ensures |rows| > 0 && r.Success? ==>
      r.value.fieldNames == rows[0] && |r.value.items| == |rows| - 1 &&
      forall k :: 0 <= k < |rows| - 1 ==>
        |rows[k + 1]| <= |rows[0]| &&
        r.value.items[k] == ImportedDataItem(RowValues(rows[0], rows[k + 1], |rows[k + 1]|), k + 1)
  {
    var importedData := new ImportedData();
    if |rows| > 0 {
      var columnNames := rows[0];
      importedData.SetFieldNames(columnNames);
      var i := 1;
      while i < |rows|
        invariant 1 <= i <= |rows|
        invariant fresh(importedData) && importedData.fieldNames == columnNames
        invariant FirstLongRow(rows, 1) == FirstLongRow(rows, i)
        invariant |importedData.items| == i - 1
        invariant forall k :: 0 <= k < i - 1 ==>
          |rows[k + 1]| <= |columnNames| &&
          importedData.items[k] == ImportedDataItem(RowValues(columnNames, rows[k + 1], |rows[k + 1]|), k + 1)
      {
        var importedDataItem := EmptyItem().SetItemIndex(i);
        var values := rows[i];
        var j := 0;
        while j < |values|
          invariant 0 <= j <= |values| && j <= |columnNames|
          invariant importedDataItem == ImportedDataItem(RowValues(columnNames, values, j), i)
        {
          if j >= |columnNames| {
            return Failure(ColumnIndexOutOfBounds(i, j));
          }
          importedDataItem := importedDataItem.AddRawValue(columnNames[j], Str(values[j]));
          j := j + 1;
        }
        importedData.AddItem(importedDataItem);
        i := i + 1;
      }
    }
    r := Success(importedData);
  }

  /** A field is present in a row's values exactly when the row reaches its column. */
  lemma {:induction false} RowValuesKeys(columnNames: seq<string>, values: seq<string>, n: nat, name: string)
    requires n <= |values| && n <= |columnNames|
    ensures name in RowValues(columnNames, values, n) <==> exists j :: 0 <= j < n && columnNames[j] == name
    decreases n
  {
    if n > 0 {
      RowValuesKeys(columnNames, values, n - 1, name);
    }
  }

  /** Of two columns with the same name, the later one's value is kept. */
  lemma {:induction false} RowValuesLastWins(columnNames: seq<string>, values: seq<string>, n: nat, j: nat)
    requires j < n <= |values| && n <= |columnNames|
    requires forall l :: j < l < n ==> columnNames[l] != columnNames[j]
    ensures columnNames[j] in RowValues(columnNames, values, n)
    ensures RowValues(columnNames, values, n)[columnNames[j]] == Str(values[j])
    decreases n
  {
    if j < n - 1 {
      RowValuesLastWins(columnNames, values, n - 1, j);
    }
  }

  /**
   * With distinct column names, each value of a row no longer than the
   * header sits under its own column, and the columns it does not reach are
   * absent.
   */
  lemma DistinctColumns(columnNames: seq<string>, values: seq<string>)
    requires |values| <= |columnNames|
    requires forall a, b :: 0 <= a < b < |columnNames| ==> columnNames[a] != columnNames[b]
    ensures forall j :: 0 <= j < |values| ==> ImportedDataItem(RowValues(columnNames, values, |values|), 0).GetRawValue(columnNames[j]) == Str(values[j])
    ensures forall j :: |values| <= j < |columnNames| ==> ImportedDataItem(RowValues(columnNames, values, |values|), 0).GetRawValue(columnNames[j]) == Null
  {
    forall j | 0 <= j < |values|
      ensures ImportedDataItem(RowValues(columnNames, values, |values|), 0).GetRawValue(columnNames[j]) == Str(values[j])
    {
      RowValuesLastWins(columnNames, values, |values|, j);
    }
    forall j | |values| <= j < |columnNames|
      ensures ImportedDataItem(RowValues(columnNames, values, |values|), 0).GetRawValue(columnNames[j]) == Null
    {
      RowValuesKeys(columnNames, values, |values|, columnNames[j]);
    }
  }
}
