// The record/field store that backs `$n`: one table per input file, built by
// splitting the file text on the record separator and each record on the field
// separator, and a cursor (`line_number`) over the current table.
// File contents are an input of the model (`disk`), in place of the filesystem.

module ColumnStore {
  import opened Wrappers
  import opened StringUtils

  /** One record: field 0 is the whole record, field i + 1 its i-th piece. */
  type Line = map<int, string>

  datatype ColumnsState = ColumnsState(
    rs: string,
    fs: string,
    files: seq<string>,            // paths still to open; the LAST one is advanced next
    currentPath: Option<string>,
    lines: map<int, Line>,
    lineNumber: nat,
    disk: map<string, string>)     // contents of every readable path

  function Reverse<T>(s: seq<T>): (r: seq<T>)
    ensures |r| == |s|
    ensures forall i :: 0 <= i < |s| ==> r[i] == s[|s| - 1 - i]
  {
    if |s| == 0 then [] else Reverse(s[1..]) + [s[0]]
  }

  /** The paths not yet advanced, in the order they will be advanced. */
  function Pending(c: ColumnsState): seq<string>
  {
    Reverse(c.files)
  }

  /** Fields 0..n of a record: field 0 is the record, field k its (k - 1)-th piece. */
  function FieldMap(record: string, pieces: seq<string>, n: nat): Line
    requires n <= |pieces|
  {
    if n == 0 then map[0 := record] else FieldMap(record, pieces, n - 1)[n := pieces[n - 1]]
  }

  /** The fields of one record. */
  function Fields(record: string, fs: string): Line
  {
    var pieces := Split(record, fs);
    FieldMap(record, pieces, |pieces|)
  }

  /** Entries 0..n-1 of a record table. */
  function TableUpTo(records: seq<string>, fs: string, n: nat): map<int, Line>
    requires n <= |records|
  {
    if n == 0 then map[] else TableUpTo(records, fs, n - 1)[n - 1 := Fields(records[n - 1], fs)]
  }

  /** The table `string_to_vec_vec` builds: entry i holds the fields of the i-th record. */
  function RecordTable(contents: string, rs: string, fs: string): map<int, Line>
  {
    var records := Split(contents, rs);
    TableUpTo(records, fs, |records|)
  }

  /** The state right after the struct literal in `new`, before its call to `next_line`. */
  function Initial(paths: seq<string>, disk: map<string, string>): ColumnsState
  {
    ColumnsState("\n", " ", Reverse(paths), None, map[], 0, disk)
  }

  /** `get`: field `column` of record `line_number`, or "" when either is absent. */
  function Field(c: ColumnsState, column: nat): string
  {
    if c.lineNumber in c.lines && column in c.lines[c.lineNumber]
    then c.lines[c.lineNumber][column]
    else ""
  }

  /** `set`: write into the current record, or, when it is absent, a new record at key 0. */
  function SetField(c: ColumnsState, column: nat, data: string): ColumnsState
  {
    if c.lineNumber in c.lines
    then c.(lines := c.lines[c.lineNumber := c.lines[c.lineNumber][column := data]])
    else c.(lines := c.lines[0 := map[column := data]])
  }

  /** `advance_file`: pop the next path and load its table; false when none remains. */
  function OpenNextFile(c: ColumnsState): (r: Result<(ColumnsState, bool), Fault>)
    ensures r.Ok? && r.value.1 ==> |r.value.0.files| + 1 == |c.files|
  {
    if |c.files| == 0 then Ok((c, false))
    else
      var path := c.files[|c.files| - 1];
      if path !in c.disk then Err(Panic("file cannot be read"))
      else Ok((c.(files := c.files[..|c.files| - 1],
                  currentPath := Some(path),
                  lines := RecordTable(c.disk[path], c.rs, c.fs)), true))
  }

  /** The loop of `next_line`: accept record `line_number`, or move on to the next file. */
  function ScanFrom(c: ColumnsState): Result<(ColumnsState, bool), Fault>
    decreases |c.files|
  {
    if c.lineNumber in c.lines then Ok((c.(lineNumber := c.lineNumber + 1), true))
    else match OpenNextFile(c)
      case Err(f) => Err(f)
      case Ok(step) => if step.1 then ScanFrom(step.0.(lineNumber := 0)) else Ok((step.0, false))
  }

  /** `next_line`: open the first file on the first call, then scan. */
  function NextRecord(c: ColumnsState): Result<(ColumnsState, bool), Fault>
  {
    if c.currentPath.None? then
      match OpenNextFile(c)
      case Err(f) => Err(f)
      case Ok(step) => if step.1 then ScanFrom(step.0) else Ok((step.0, false))
    else ScanFrom(c)
  }

  /** `new`: the initial state, then one call of `next_line` whose result is dropped. */
  function NewColumns(paths: seq<string>, disk: map<string, string>): Result<ColumnsState, Fault>
  {
    match NextRecord(Initial(paths, disk))
    case Err(f) => Err(f)
    case Ok(step) => Ok(step.0)
  }

  /** `set_record_sep`: refused once a file has been advanced. */
  function WithRecordSep(c: ColumnsState, value: string): Result<ColumnsState, Fault>
  {
    if c.currentPath.Some? then Err(Panic("must set fs/rs before reading lines"))
    else Ok(c.(rs := value))
  }

  /** `set_field_sep`: refused once a file has been advanced. */
  function WithFieldSep(c: ColumnsState, value: string): Result<ColumnsState, Fault>
  {
    if c.currentPath.Some? then Err(Panic("must set fs/rs before reading lines"))
    else Ok(c.(fs := value))
  }

  // ---------------------------------------------------------------- properties

  lemma {:induction false} FieldMapContents(record: string, pieces: seq<string>, n: nat)
    requires n <= |pieces|
    ensures forall k :: k in FieldMap(record, pieces, n) <==> 0 <= k <= n
    ensures FieldMap(record, pieces, n)[0] == record
    ensures forall j :: 0 <= j < n ==> FieldMap(record, pieces, n)[j + 1] == pieces[j]
  {
    if n > 0 {
      FieldMapContents(record, pieces, n - 1);
    }
  }

  lemma {:induction false} TableUpToContents(records: seq<string>, fs: string, n: nat)
    requires n <= |records|
    ensures forall k :: k in TableUpTo(records, fs, n) <==> 0 <= k < n
    ensures forall i :: 0 <= i < n ==> TableUpTo(records, fs, n)[i] == Fields(records[i], fs)
  {
    if n > 0 {
      TableUpToContents(records, fs, n - 1);
    }
  }

  /** The table has one entry per piece of the text split on `rs` (empty pieces kept):
      field 0 of entry i is the i-th record and field j + 1 the j-th piece of that record
      split on `fs`; nothing else is stored, and no text is lost: the records joined by
      `rs` give the file back, and each record's pieces joined by `fs` give the record. */
  lemma RecordTableFaithful(contents: string, rs: string, fs: string)
    ensures var t := RecordTable(contents, rs, fs);
      var records := Split(contents, rs);
      && (forall i :: i in t <==> 0 <= i < |records|)
      && Join(records, rs) == contents
      && forall i :: 0 <= i < |records| ==>
           && (forall k :: k in t[i] <==> 0 <= k <= |Split(records[i], fs)|)
           && t[i][0] == records[i]
           && (forall j :: 0 <= j < |Split(records[i], fs)| ==> t[i][j + 1] == Split(records[i], fs)[j])
           && Join(Split(records[i], fs), fs) == records[i]
  {
    var records := Split(contents, rs);
    TableUpToContents(records, fs, |records|);
    SplitJoin(contents, rs);
    forall i | 0 <= i < |records|
      ensures Join(Split(records[i], fs), fs) == records[i]
      ensures forall k :: k in Fields(records[i], fs) <==> 0 <= k <= |Split(records[i], fs)|
      ensures Fields(records[i], fs)[0] == records[i]
      ensures forall j :: 0 <= j < |Split(records[i], fs)| ==> Fields(records[i], fs)[j + 1] == Split(records[i], fs)[j]
    {
      SplitJoin(records[i], fs);
      FieldMapContents(records[i], Split(records[i], fs), |Split(records[i], fs)|);
    }
  }

  /** `new` stores the paths reversed, so they are advanced in their original order;
      each successful `advance_file` opens the first pending path and removes it. */
  lemma FilesOpenedInOrder(paths: seq<string>, disk: map<string, string>, c: ColumnsState)
    ensures Pending(Initial(paths, disk)) == paths
    ensures OpenNextFile(c).Ok? && OpenNextFile(c).value.1 ==>
      && |Pending(c)| > 0
      && OpenNextFile(c).value.0.currentPath == Some(Pending(c)[0])
      && Pending(OpenNextFile(c).value.0) == Pending(c)[1..]
  {
    assert Reverse(Reverse(paths)) == paths;
  }

  /** While the current table has record `line_number`, `next_line` accepts it and
      moves the cursor by exactly one. */
  lemma NextLineWithinTable(c: ColumnsState)
    requires c.currentPath.Some? && c.lineNumber in c.lines
    ensures NextRecord(c) == Ok((c.(lineNumber := c.lineNumber + 1), true))
  {
  }

  /** A table that is used up is followed by the next file's table from record 0. */
  lemma NextLineOpensNextFile(c: ColumnsState)
    requires c.currentPath.Some? && c.lineNumber !in c.lines && |c.files| > 0
    requires c.files[|c.files| - 1] in c.disk
    ensures NextRecord(c) == ScanFrom(OpenNextFile(c).value.0.(lineNumber := 0))
  {
  }

  /** The state `next_line` leaves behind when it reports false. */
  predicate Exhausted(c: ColumnsState)
  {
    |c.files| == 0 && (c.currentPath.None? || c.lineNumber !in c.lines)
  }

  lemma {:induction false} ScanFalseExhausted(c: ColumnsState)
    requires c.currentPath.Some?
    requires ScanFrom(c).Ok? && !ScanFrom(c).value.1
    ensures Exhausted(ScanFrom(c).value.0) && ScanFrom(c).value.0.currentPath.Some?
    decreases |c.files|
  {
    if c.lineNumber !in c.lines {
      var r := OpenNextFile(c);
      if r.value.1 {
        ScanFalseExhausted(r.value.0.(lineNumber := 0));
      }
    }
  }

  /** Exhaustion is permanent: once `next_line` reports false it keeps reporting false
      and changes nothing. */
  lemma NoFilesLeftIsPermanent(c: ColumnsState)
    requires NextRecord(c).Ok? && !NextRecord(c).value.1
    ensures var c' := NextRecord(c).value.0;
      Exhausted(c') && NextRecord(c') == Ok((c', false))
  {
    if c.currentPath.None? {
      var r := OpenNextFile(c);
      if r.value.1 {
        ScanFalseExhausted(r.value.0);
      }
    } else {
      ScanFalseExhausted(c);
    }
  }

  /** Reading back a field just written: from the current record when it exists; when it
      does not, the write went to record 0 and is visible only when the cursor is 0. */
  lemma SetThenGet(c: ColumnsState, column: nat, data: string)
    ensures c.lineNumber in c.lines || c.lineNumber == 0 ==> Field(SetField(c, column, data), column) == data
    ensures c.lineNumber !in c.lines && c.lineNumber != 0 ==> Field(SetField(c, column, data), column) == ""
    ensures forall other: nat :: other != column && c.lineNumber in c.lines ==>
              Field(SetField(c, column, data), other) == Field(c, other)
  {
  }

  /** The separators can be changed exactly until the first file is advanced. */
  lemma SeparatorsFixedOnceOpen(c: ColumnsState, value: string)
    ensures WithRecordSep(c, value).Err? <==> c.currentPath.Some?
    ensures WithFieldSep(c, value).Err? <==> c.currentPath.Some?
    ensures WithRecordSep(c, value).Ok? ==> WithRecordSep(c, value).value.rs == value
    ensures WithFieldSep(c, value).Ok? ==> WithFieldSep(c, value).value.fs == value
  {
  }

  lemma SplitSample()
    ensures Split("1 2 3\n", "\n") == ["1 2 3", ""]
  {
    var text := "1 2 3\n";
    assert PrefixAt(text, "\n", 5) by { assert text[5..6] == "\n"; }
    assert FirstMatch(text, "\n", 5) == Some(5);
    assert FirstMatch(text, "\n", 4) == Some(5) by { assert text[4] == '3'; assert text[4..5] == [text[4]]; }
    assert FirstMatch(text, "\n", 3) == Some(5) by { assert text[3..4] != "\n"; }
    assert FirstMatch(text, "\n", 2) == Some(5) by { assert text[2..3] != "\n"; }
    assert FirstMatch(text, "\n", 1) == Some(5) by { assert text[1..2] != "\n"; }
    assert FirstMatch(text, "\n", 0) == Some(5) by { assert text[0..1] != "\n"; }
    assert text[..5] == "1 2 3" && text[6..] == "";
  }

  /** The table of "1 2 3\n" split on newlines has records 0 and 1 only. */
  lemma SampleTable()
    ensures var t := RecordTable("1 2 3\n", "\n", " "); 0 in t && 1 in t && 2 !in t
  {
    SplitSample();
    TableUpToContents(["1 2 3", ""], " ", 2);
  }

  /** `new` over the one file "1 2 3\n" opens it and accepts record 0. */
  lemma SampleNew()
    ensures var disk := map["in.txt" := "1 2 3\n"];
      NewColumns(["in.txt"], disk)
      == Ok(ColumnsState("\n", " ", [], Some("in.txt"), RecordTable("1 2 3\n", "\n", " "), 1, disk))
  {
    var disk := map["in.txt" := "1 2 3\n"];
    var c0 := Initial(["in.txt"], disk);
    assert c0.files == ["in.txt"];
    SampleTable();
    var c1 := c0.(files := [], currentPath := Some("in.txt"), lines := RecordTable("1 2 3\n", "\n", " "));
    assert OpenNextFile(c0) == Ok((c1, true));
    assert ScanFrom(c1) == Ok((c1.(lineNumber := 1), true));
  }

  /** With one file "1 2 3\n", `new` accepts record 0 and the next `next_line` accepts the
      empty record after the final newline; `get` then reads record 2, which is absent,
      so field 1 reads as "". */
  lemma FirstNextLineReadsPastRecord()
    ensures var disk := map["in.txt" := "1 2 3\n"];
      NewColumns(["in.txt"], disk).Ok?
      && var c := NewColumns(["in.txt"], disk).value;
      c.lineNumber == 1
      && NextRecord(c).Ok? && NextRecord(c).value.1
      && Field(NextRecord(c).value.0, 1) == ""
  {
    SampleNew();
    SampleTable();
    var disk := map["in.txt" := "1 2 3\n"];
    var c := ColumnsState("\n", " ", [], Some("in.txt"), RecordTable("1 2 3\n", "\n", " "), 1, disk);
    assert NextRecord(c) == ScanFrom(c) == Ok((c.(lineNumber := 2), true));
    assert Field(c.(lineNumber := 2), 1) == "";
  }


  // ---------------------------------------------------------------- the store

  class Columns {
    var rs: string
    var fs: string
    var files: seq<string>
    var currentPath: Option<string>
    var lines: map<int, Line>
    var lineNumber: nat
    const disk: map<string, string>

    ghost function State(): ColumnsState
      reads this
    {
      ColumnsState(rs, fs, files, currentPath, lines, lineNumber, disk)
    }

    constructor Init(paths: seq<string>, contents: map<string, string>)
      ensures State() == Initial(paths, contents)
    {
      rs := "\n";
      fs := " ";
      var reversed := [];
      var i := 0;
      while i < |paths|
        invariant 0 <= i <= |paths|
        invariant reversed == Reverse(paths[..i])
      {
        assert paths[..i + 1][1..] == paths[1..i + 1];
        ReversePush(paths[..i], paths[i]);
        assert paths[..i] + [paths[i]] == paths[..i + 1];
        reversed := [paths[i]] + reversed;
        i := i + 1;
      }
      assert paths[..i] == paths;
      files := reversed;
      currentPath := None;
      lines := map[];
      lineNumber := 0;
      disk := contents;
    }

    /** `new`: build the store and accept the first record. */
    static method New(paths: seq<string>, contents: map<string, string>) returns (r: Result<Columns, Fault>)
      ensures r.Ok? <==> NewColumns(paths, contents).Ok?
      ensures r.Ok? ==> fresh(r.value) && r.value.State() == NewColumns(paths, contents).value
      ensures r.Err? ==> r.error == NewColumns(paths, contents).error
    {
      var c := new Columns.Init(paths, contents);
      var started := c.NextLine();
      if started.Err? {
        return Err(started.error);
      }
      return Ok(c);
    }

    method Get(column: nat) returns (field: string)
      ensures field == Field(State(), column)
    {
      if lineNumber in lines && column in lines[lineNumber] {
        return lines[lineNumber][column];
      }
      return "";
    }

    method Set(column: nat, data: string)
      modifies this
      ensures State() == SetField(old(State()), column, data)
    {
      if lineNumber in lines {
        lines := lines[lineNumber := lines[lineNumber][column := data]];
      } else {
        lines := lines[0 := map[column := data]];
      }
    }

    /** `string_to_vec_vec`: the two nested loops over the split pieces. */
    method StringToVecVec(contents: string) returns (table: map<int, Line>)
      ensures table == RecordTable(contents, rs, fs)
    {
      var records := Split(contents, rs);
      table := map[];
      for i := 0 to |records|
        invariant table == TableUpTo(records, fs, i)
      {
        var record := records[i];
        var pieces := Split(record, fs);
        var line: Line := map[0 := record];
        for j := 0 to |pieces|
          invariant line == FieldMap(record, pieces, j)
        {
          line := line[j + 1 := pieces[j]];
        }
        table := table[i := line];
      }
    }

    method AdvanceFile() returns (r: Result<bool, Fault>)
      modifies this
      ensures Agrees(r, State(), OpenNextFile(old(State())))
    {
      if |files| == 0 {
        return Ok(false);
      }
      var path := files[|files| - 1];
      files := files[..|files| - 1];
      if path !in disk {
        return Err(Panic("file cannot be read"));
      }
      currentPath := Some(path);
      lines := StringToVecVec(disk[path]);
      return Ok(true);
    }

    method NextLine() returns (r: Result<bool, Fault>)
      modifies this
      ensures Agrees(r, State(), NextRecord(old(State())))
    {
      if currentPath.None? {
        var advanced := AdvanceFile();
        if advanced.Err? || !advanced.value {
          return advanced;
        }
      }
      while true
        invariant currentPath.Some?
        invariant NextRecord(old(State())) == ScanFrom(State())
        decreases |files|
      {
        if lineNumber in lines {
          lineNumber := lineNumber + 1;
          return Ok(true);
        }
        var advanced := AdvanceFile();
        if advanced.Err? || !advanced.value {
          return advanced;
        }
        lineNumber := 0;
      }
    }

    method SetRecordSep(value: string) returns (r: Result<(), Fault>)
      modifies this
      ensures Agrees(r, State(), match WithRecordSep(old(State()), value)
                                   case Ok(s) => Ok((s, ()))
                                   case Err(f) => Err(f))
    {
      if currentPath.Some? {
        return Err(Panic("must set fs/rs before reading lines"));
      }
      rs := value;
      return Ok(());
    }

    method SetFieldSep(value: string) returns (r: Result<(), Fault>)
      modifies this
      ensures Agrees(r, State(), match WithFieldSep(old(State()), value)
                                   case Ok(s) => Ok((s, ()))
                                   case Err(f) => Err(f))
    {
      if currentPath.Some? {
        return Err(Panic("must set fs/rs before reading lines"));
      }
      fs := value;
      return Ok(());
    }
  }

  lemma {:induction false} ReversePush<T>(s: seq<T>, x: T)
    ensures Reverse(s + [x]) == [x] + Reverse(s)
  {
    assert |Reverse(s + [x])| == |[x] + Reverse(s)|;
  }
}
