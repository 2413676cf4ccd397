/**
 * The flat-file sink of app.py (`log_to_csv`): `data/mood_logs.csv` gets a
 * header line only when it is created, and one three-column record per call.
 *
 * The file is modelled by its lines (header or record), not by pandas'
 * text serialisation; the timestamp is an opaque string from the caller.
 */
module CsvLog {

  const FilePath := "data/mood_logs.csv"
  const HeaderCells := ["Text", "Emotion", "Timestamp"]

  /** One logged interaction, in the file's column order. */
  datatype Row = Row(text: string, emotion: string, timestamp: string)

  /** A line of the CSV file. */
  datatype Line = HeaderLine | RecordLine(row: Row)

  /** The cells of a line: records line up with the header's columns. */
  function Cells(line: Line): (cells: seq<string>)
    ensures |cells| == |HeaderCells|
    ensures line.HeaderLine? ==> cells == ["Text", "Emotion", "Timestamp"]
    ensures line.RecordLine? ==>
      cells[0] == line.row.text && cells[1] == line.row.emotion && cells[2] == line.row.timestamp
  {
    match line
    case HeaderLine => HeaderCells
    case RecordLine(r) => [r.text, r.emotion, r.timestamp]
  }

  /** The file system as far as the sink sees it: whether `data/` exists,
      and either no file or a file with its lines. */
  datatype CsvFile = Missing(dirExists: bool) | Present(lines: seq<Line>)

  /** One `log_to_csv` call on file state `f`: the header is written first
      exactly when the file did not exist, then the record is appended. */
  function Append(f: CsvFile, row: Row): (g: CsvFile)
    ensures g.Present?
    ensures f.Missing? ==> g.lines == [HeaderLine, RecordLine(row)]
    ensures f.Present? ==> g.lines == f.lines + [RecordLine(row)]
  {
    match f
    case Missing(_) => Present([HeaderLine, RecordLine(row)])
    case Present(lines) => Present(lines + [RecordLine(row)])
  }

  /** The record lines of a sequence of rows, in order. */
  function Records(rows: seq<Row>): (lines: seq<Line>)
    ensures |lines| == |rows|
    ensures forall i :: 0 <= i < |rows| ==> lines[i] == RecordLine(rows[i])
  {
    if rows == [] then [] else Records(rows[..|rows| - 1]) + [RecordLine(rows[|rows| - 1])]
  }

  /** The lines of a file, empty when there is no file. */
  function Content(f: CsvFile): seq<Line>
  {
    if f.Present? then f.lines else []
  }

  /** The number of header lines among `lines`. */
  function HeaderCount(lines: seq<Line>): nat
  {
    if lines == [] then 0
    else HeaderCount(lines[..|lines| - 1]) + (if lines[|lines| - 1].HeaderLine? then 1 else 0)
  }

  /** Successive `log_to_csv` calls, one per row, starting from `f`. */
  function AppendAll(f: CsvFile, rows: seq<Row>): CsvFile
  {
    if rows == [] then f else Append(AppendAll(f, rows[..|rows| - 1]), rows[|rows| - 1])
  }

  /** A call adds one header line when the file is new and none otherwise,
      and keeps every earlier line in place. */
  lemma AppendHeaderOnce(f: CsvFile, row: Row)
    ensures var g := Append(f, row);
            Content(f) <= g.lines
            && HeaderCount(g.lines) == HeaderCount(Content(f)) + (if f.Missing? then 1 else 0)
            && g.lines[|g.lines| - 1] == RecordLine(row)
  {
  }

  lemma {:induction false} HeaderCountRecords(rows: seq<Row>)
    ensures HeaderCount(Records(rows)) == 0
  {
    if rows != [] {
      var init := rows[..|rows| - 1];
      HeaderCountRecords(init);
      assert Records(rows)[..|rows| - 1] == Records(init);
    }
  }

  lemma {:induction false} HeaderCountConcat(a: seq<Line>, b: seq<Line>)
    ensures HeaderCount(a + b) == HeaderCount(a) + HeaderCount(b)
    decreases |b|
  {
    if b == [] {
      assert a + b == a;
    } else {
      var bInit := b[..|b| - 1];
      assert (a + b)[..|a + b| - 1] == a + bInit;
      HeaderCountConcat(a, bInit);
    }
  }

  /** Any non-empty run of calls on an existing file only appends the
      records, in order; on a missing file it also writes the header, first
      and once. */
  lemma {:induction false} AppendAllLines(f: CsvFile, rows: seq<Row>)
    requires rows != []
    ensures AppendAll(f, rows).Present?
    ensures AppendAll(f, rows).lines ==
      Content(f) + (if f.Missing? then [HeaderLine] else []) + Records(rows)
  {
    var init := rows[..|rows| - 1];
    var last := rows[|rows| - 1];
    if init == [] {
      assert Records(rows) == [RecordLine(last)];
    } else {
      AppendAllLines(f, init);
      assert Records(rows) == Records(init) + [RecordLine(last)];
    }
  }

  /** Starting without a file, the log after any non-empty run of calls is
      the header followed by one record per call: one header, at the top. */
  lemma FreshLogHasOneHeader(dirExists: bool, rows: seq<Row>)
    requires rows != []
    ensures var lines := AppendAll(Missing(dirExists), rows).lines;
            lines == [HeaderLine] + Records(rows)
            && HeaderCount(lines) == 1
            && lines[0] == HeaderLine
  {
    AppendAllLines(Missing(dirExists), rows);
    var lines := AppendAll(Missing(dirExists), rows).lines;
    assert lines == [HeaderLine] + Records(rows);
    HeaderCountRecords(rows);
    HeaderCountConcat([HeaderLine], Records(rows));
    assert HeaderCount([HeaderLine]) == 1 by {
      assert [HeaderLine][..0] == [];
    }
  }

  /** The CSV file on disk, updated in place by `LogToCsv`. */
  class MoodLogFile {
    const path: string
    var dirExists: bool
    var fileExists: bool
    var lines: seq<Line>

    /** A missing file has no lines, and a file lives inside `data/`. */
    ghost predicate Valid()
      reads this
    {
      (!fileExists ==> lines == []) && (fileExists ==> dirExists)
    }

    /** The file state these fields stand for. */
    ghost function File(): CsvFile
      reads this
      requires Valid()
    {
      if fileExists then Present(lines) else Missing(dirExists)
    }

    /** The sink as found on disk at start-up. */
    constructor (initial: CsvFile)
      ensures path == FilePath
      ensures Valid() && File() == initial
    {
      path := FilePath;
      match initial
      case Missing(d) =>
        dirExists, fileExists, lines := d, false, [];
      case Present(ls) =>
        dirExists, fileExists, lines := true, true, ls;
    }

    /** `log_to_csv(text, emotion)`, with `timestamp` the formatted time of
        the call. */
    method LogToCsv(text: string, emotion: string, timestamp: string)
      requires Valid()
      modifies this
      ensures Valid() && fileExists && dirExists
      ensures File() == Append(old(File()), Row(text, emotion, timestamp))
    {
      dirExists := true;
      var isNew := !fileExists;
      var entry := Row(text, emotion, timestamp);
      if isNew {
        lines := lines + [HeaderLine];
      }
      lines := lines + [RecordLine(entry)];
      fileExists := true;
    }
  }
}
