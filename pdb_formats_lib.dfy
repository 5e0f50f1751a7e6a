/**
 * The record collection of the PDB formats library (PDBFormatsLibTest/PDBFormatReaderTest.cs):
 * a file path and a list of text records that `Initialize`, `AddRecord` and `Clear` change
 * in place, with a record count, a joined listing and a statistics line read from them.
 * Both fields are .NET references and may be null (None); a member that would throw
 * returns the exception it throws instead.
 */
module PdbFormatsLib {
  import opened Wrappers
  import opened TextFormat

  const INITIAL_RECORDS: seq<string> :=
    ["HEADER    Sample PDB Record", "TITLE     PDB Format Library Demo", "AUTHOR    PDBFormatsLib"]
  const NO_RECORDS: string := "No records available"
  const NOT_SPECIFIED: string := "Not specified"

  datatype Exception = ArgumentException(paramName: string) | NullReferenceException

  // ---------------------------------------------------------------- text

  /** `string.Join`: the items with `sep` between each two consecutive ones. */
  function Join(sep: string, items: seq<string>): string {
    if items == [] then ""
    else if |items| == 1 then items[0]
    else items[0] + sep + Join(sep, items[1..])
  }

  function TotalLength(items: seq<string>): nat {
    if items == [] then 0 else |items[0]| + TotalLength(items[1..])
  }

  /** The joined text holds every character of every item plus one separator per gap. */
  lemma {:induction false} JoinLength(sep: string, items: seq<string>)
    requires items != []
    ensures |Join(sep, items)| == TotalLength(items) + (|items| - 1) * |sep|
  {
    if |items| > 1 {
      JoinLength(sep, items[1..]);
    }
  }

  /** Joining one more item extends the joined text by a separator and that item. */
  lemma {:induction false} JoinAppend(sep: string, items: seq<string>, item: string)
    requires items != []
    ensures Join(sep, items + [item]) == Join(sep, items) + sep + item
  {
    if |items| == 1 {
      assert (items + [item])[1..] == [item];
    } else {
      assert (items + [item])[1..] == items[1..] + [item];
      JoinAppend(sep, items[1..], item);
    }
  }

  /** The joined text starts with the first item, followed by the separator when there are more. */
  lemma JoinStart(sep: string, items: seq<string>)
    requires |items| >= 2
    ensures Join(sep, items)[..|items[0]| + |sep|] == items[0] + sep
  {
  }

  /** The text of `GetFormattedRecords` for a non-null list. */
  function FormatRecords(records: seq<string>, newline: string): string {
    if records == [] then NO_RECORDS else Join(newline, records)
  }

  /**
   * The "no records" message is not unique to an empty list: a list whose one record is
   * that message prints the same. With a line break as separator nothing else does.
   */
  lemma NoRecordsMessage(records: seq<string>, newline: string)
    requires newline == "\n" || newline == "\r\n"
    ensures FormatRecords(records, newline) == NO_RECORDS <==> records == [] || records == [NO_RECORDS]
  {
    if |records| >= 2 {
      JoinStart(newline, records);
      assert Join(newline, records)[|records[0]|] == newline[0];
    }
  }

  /**
   * The text each element of the list contributes to the joined listing: a null element
   * prints as the empty string.
   */
  function RecordTexts(list: seq<Option<string>>): (texts: seq<string>)
    ensures |texts| == |list|
    ensures forall i :: 0 <= i < |list| ==> texts[i] == list[i].GetOr("")
  {
    if list == [] then [] else [list[0].GetOr("")] + RecordTexts(list[1..])
  }

  /** The statistics line for a path (null prints as "Not specified") and a record count. */
  function StatisticsText(filePath: Option<string>, recordCount: nat): string {
    "File: " + filePath.GetOr(NOT_SPECIFIED) + ", Record Count: " + Decimal(recordCount)
  }

  /** The count is the last word of the statistics line and can be read back from it. */
  lemma {:induction false} StatisticsCountReadBack(filePath: Option<string>, recordCount: nat)
    ensures var text := StatisticsText(filePath, recordCount);
      var digits := Decimal(recordCount);
      && LastIndexOf(text, ' ') == Some(|text| - |digits| - 1)
      && text[|text| - |digits|..] == digits
      && ParseDecimal(digits) == recordCount
    ensures StatisticsText(filePath, recordCount)[..6] == "File: "
    ensures filePath.None? ==> StatisticsText(filePath, recordCount)[6..6 + |NOT_SPECIFIED|] == NOT_SPECIFIED
  {
    var text := StatisticsText(filePath, recordCount);
    var digits := Decimal(recordCount);
    var k := |text| - |digits| - 1;
    assert text[k] == ' ';
    assert text[k + 1..] == digits;
    assert ' ' !in digits by {
      forall i | 0 <= i < |digits| ensures digits[i] != ' ' {
        assert IsDecimalDigit(digits[i]);
      }
    }
    ParseDecimalOfDecimal(recordCount);
  }

  // ---------------------------------------------------------------- the reader

  class PdbFormatReader {
    var filePath: Option<string>
    var records: Option<seq<Option<string>>>  // the list and each of its elements may be null

    /** A reader with an empty list and no path. */
    constructor ()
      ensures filePath == None && records == Some([])
    {
      filePath, records := None, Some([]);
    }

    /** A reader with an empty list and the given path. */
    constructor WithPath(path: Option<string>)
      ensures filePath == path && records == Some([])
    {
      filePath, records := path, Some([]);
    }

    /** The `FilePath` setter. */
    method SetFilePath(path: Option<string>)
      modifies this`filePath
      ensures filePath == path
    {
      filePath := path;
    }

    /** The `Records` setter; it may install a null list or a list holding null elements. */
    method SetRecords(list: Option<seq<Option<string>>>)
      modifies this`records
      ensures records == list
    {
      records := list;
    }

    /** `RecordCount`: the length of the list, null elements included, 0 when the list is null. */
    function RecordCount(): nat
      reads this
    {
      match records
      case None => 0
      case Some(list) => |list|
    }

    /** Replaces the contents with the three sample records, in order. */
    method Initialize() returns (thrown: Option<Exception>)
      modifies this`records
      ensures old(records).None? ==> thrown == Some(NullReferenceException) && records == old(records)
      ensures old(records).Some? ==>
        && thrown == None && RecordCount() == 3
        && records == Some([Some(INITIAL_RECORDS[0]), Some(INITIAL_RECORDS[1]), Some(INITIAL_RECORDS[2])])
    {
      if records.None? {
        return Some(NullReferenceException);
      }
      records := Some([]);
      records := Some(records.value + [Some(INITIAL_RECORDS[0])]);
      records := Some(records.value + [Some(INITIAL_RECORDS[1])]);
      records := Some(records.value + [Some(INITIAL_RECORDS[2])]);
      assert records.value == [Some(INITIAL_RECORDS[0]), Some(INITIAL_RECORDS[1]), Some(INITIAL_RECORDS[2])];
      return None;
    }

    /** Appends a record; a null or empty record is refused before the list is touched. */
    method AddRecord(record: Option<string>) returns (thrown: Option<Exception>)
      modifies this`records
      ensures record.None? || record.value == "" ==>
        thrown == Some(ArgumentException("record")) && records == old(records)
      ensures record.Some? && record.value != "" && old(records).None? ==>
        thrown == Some(NullReferenceException) && records == old(records)
      ensures record.Some? && record.value != "" && old(records).Some? ==>
        thrown == None && records == Some(old(records).value + [record])
        && RecordCount() == old(RecordCount()) + 1
    {
      if record.None? || record.value == "" {
        return Some(ArgumentException("record"));
      }
      if records.None? {
        return Some(NullReferenceException);
      }
      records := Some(records.value + [record]);
      return None;
    }

    /** Empties the list. */
    method Clear() returns (thrown: Option<Exception>)
      modifies this`records
      ensures old(records).None? ==> thrown == Some(NullReferenceException) && records == old(records)
      ensures old(records).Some? ==> thrown == None && records == Some([]) && RecordCount() == 0
    {
      if records.None? {
        return Some(NullReferenceException);
      }
      records := Some([]);
      return None;
    }

    /** `GetFormattedRecords`, with `Environment.NewLine` given as `newline`; null elements print as empty lines. */
    function FormattedRecords(newline: string): (r: Result<string, Exception>)
      reads this
      ensures r.Failure? <==> records.None?
      ensures r.Failure? ==> r.error == NullReferenceException
      ensures records == Some([]) ==> r == Success(NO_RECORDS)
      ensures records.Some? && records.value != [] ==>
        |r.value| == TotalLength(RecordTexts(records.value)) + (|records.value| - 1) * |newline|
    {
      match records
      case None => Failure(NullReferenceException)
      case Some(list) =>
        var texts := RecordTexts(list);
        if list != [] then JoinLength(newline, texts); Success(FormatRecords(texts, newline))
        else Success(FormatRecords(texts, newline))
    }

    /** `GetStatistics`. */
    function Statistics(): string
      reads this
    {
      StatisticsText(filePath, RecordCount())
    }
  }

  /** Clearing twice leaves the same state as clearing once. */
  method ClearIdempotent(reader: PdbFormatReader)
    modifies reader
    ensures reader.records == (if old(reader.records).None? then None else Some([]))
    ensures reader.filePath == old(reader.filePath)
  {
    var first := reader.Clear();
    ghost var once := reader.records;
    var second := reader.Clear();
    assert reader.records == once;
  }

  /** Adding a record to a non-empty list adds one line to the formatted text. */
  lemma AddRecordFormatting(list: seq<string>, record: string, newline: string)
    requires list != []
    ensures FormatRecords(list + [record], newline) == FormatRecords(list, newline) + newline + record
    ensures FormatRecords([record], newline) == record
  {
    JoinAppend(newline, list, record);
  }

  /** A null element installed through the setter is counted and prints as an empty last line. */
  lemma NullRecordFormatting(list: seq<Option<string>>, newline: string)
    requires list != []
    ensures FormatRecords(RecordTexts(list + [None]), newline) == FormatRecords(RecordTexts(list), newline) + newline
  {
    assert RecordTexts(list + [None]) == RecordTexts(list) + [""];
    JoinAppend(newline, RecordTexts(list), "");
  }

  /**
   * The console demo's call sequence: a reader for "sample.pdb" counts 3 records after
   * `Initialize`, 4 after adding one, and 0 after `Clear`.
   */
  method ConsoleScenario(newline: string) returns (counts: seq<nat>, statistics: string, listing: Result<string, Exception>)
    ensures counts == [3, 4, 0]
    ensures statistics == StatisticsText(Some("sample.pdb"), 3)
    ensures listing == Success(Join(newline, INITIAL_RECORDS + ["REMARK    Custom record added from ConsoleApp"]))
  {
    var reader := new PdbFormatReader.WithPath(Some("sample.pdb"));
    var _ := reader.Initialize();
    statistics := reader.Statistics();
    counts := [reader.RecordCount()];
    var _ := reader.AddRecord(Some("REMARK    Custom record added from ConsoleApp"));
    counts := counts + [reader.RecordCount()];
    assert RecordTexts(reader.records.value) == INITIAL_RECORDS + ["REMARK    Custom record added from ConsoleApp"];
    listing := reader.FormattedRecords(newline);
    var _ := reader.Clear();
    counts := counts + [reader.RecordCount()];
  }
}
