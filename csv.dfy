/**
 * The spreadsheet export parse inside `loadCSV` (script.js:39-46): the text is cut into
 * lines at '\n', every line into fields at ',', the header line is dropped, and each
 * remaining line becomes a record of its first five fields, trimmed.
 */
module Csv {
  import opened Wrappers
  import opened Text

  /** One abstract: `{id, name, location, time, date}`; a field the line lacks is `undefined`. */
  datatype Record = Record(
    id: Option<string>,
    name: Option<string>,
    location: Option<string>,
    time: Option<string>,
    date: Option<string>)

  /** Field number `f` of a record, in column order. */
  function FieldOf(r: Record, f: nat): Option<string>
    requires f < 5
  {
    match f
    case 0 => r.id
    case 1 => r.name
    case 2 => r.location
    case 3 => r.time
    case 4 => r.date
  }

  /** `row[f]?.trim()`. */
  function Cell(row: seq<string>, f: nat): Option<string> {
    if f < |row| then Some(Trim(row[f])) else None
  }

  /** One data line as a record. */
  function ParseRow(line: string): Record {
    var row := Split(line, ',');
    Record(Cell(row, 0), Cell(row, 1), Cell(row, 2), Cell(row, 3), Cell(row, 4))
  }

  /** The whole export: every line after the first, as a record. */
  function ParseCsv(text: string): (records: seq<Record>)
    ensures |records| == Occurrences(text, '\n')
    ensures forall k :: 0 <= k < |records| ==> records[k].id.Some?
  {
    var lines := Split(text, '\n');
    SplitCount(text, '\n');
    seq(|lines| - 1, k requires 0 <= k < |lines| - 1 => ParseRow(lines[k + 1]))
  }

  /**
   * For a text made of lines, the parse gives one record per line after the header, and
   * record k is the parse of line k + 1 alone.
   */
  lemma ParseCsvLines(lines: seq<string>)
    requires |lines| >= 1
    requires forall k :: 0 <= k < |lines| ==> '\n' !in lines[k]
    ensures |ParseCsv(Join(lines, '\n'))| == |lines| - 1
    ensures forall k :: 0 <= k < |lines| - 1 ==> ParseCsv(Join(lines, '\n'))[k] == ParseRow(lines[k + 1])
  {
    SplitJoin(lines, '\n');
  }

  /** Field f of a parsed line is the trimmed f-th comma piece, or absent. */
  lemma ParseRowField(line: string, f: nat)
    requires f < 5
    ensures FieldOf(ParseRow(line), f) == Cell(Split(line, ','), f)
  {
    if f == 0 {} else if f == 1 {} else if f == 2 {} else if f == 3 {} else {}
  }

  /** The id field is always there; field `f > 0` is missing exactly when the line has fewer than `f` commas. */
  lemma RowFieldPresence(line: string, f: nat)
    requires f < 5
    ensures FieldOf(ParseRow(line), f).None? <==> Occurrences(line, ',') < f
    ensures FieldOf(ParseRow(line), f).Some? ==>
      FieldOf(ParseRow(line), f).value == Trim(Split(line, ',')[f])
  {
    SplitCount(line, ',');
    ParseRowField(line, f);
  }

  /** A text with no line break (an empty export, or a header alone) holds no records. */
  lemma NoLineBreakNoRecords(text: string)
    requires '\n' !in text
    ensures ParseCsv(text) == []
  {
    SplitNoSeparator(text, '\n');
  }
}
