// The older runtime, which reads its input files itself: it keeps the current line and
// splits it into columns on demand, instead of using the record store.
// File contents are an input of the model (`disk`), in place of the filesystem.

module LegacyRuntime {
  import opened Wrappers
  import opened Numbers
  import opened StringHeap
  import opened StringUtils
  import LiveRuntime

  datatype LegacyData = LegacyData(
    rs: char,
    fs: char,
    files: seq<string>,              // paths still to open; `pop` takes the LAST one
    currentFile: Option<string>,     // the unread rest of the open file
    fullLine: Option<string>,        // the line last read, with its newline
    output: string,
    heap: Heap,
    disk: map<string, string>)

  /** `RuntimeData::new`: note RS is a space and FS a newline. Its canary is left out:
      nothing in this runtime reads it. */
  function NewLegacyData(paths: seq<string>, disk: map<string, string>, heap: Heap): LegacyData
  {
    LegacyData(' ', '\n', paths, None, None, "", heap, disk)
  }

  /** `BufRead::read_line`: up to and including the next newline, or the rest of the file;
      empty exactly at end of file. */
  function ReadLine(text: string): (r: (string, string))
    ensures r.0 + r.1 == text
    ensures |r.0| == 0 <==> |text| == 0
    ensures forall k :: 0 <= k < |r.0| - 1 ==> r.0[k] != '\n'
    ensures LiveRuntime.EndsWithNewline(r.0) || r.1 == ""
  {
    match FirstMatch(text, "\n", 0)
    case None =>
      assert forall k :: 0 <= k < |text| ==> text[k] != '\n' by {
        forall k | 0 <= k < |text| ensures text[k] != '\n' {
          assert !PrefixAt(text, "\n", k);
          assert text[k..k + 1] == [text[k]];
        }
      }
      (text, "")
    case Some(j) =>
      assert text[j..j + 1] == "\n";
      assert forall k :: 0 <= k < j ==> text[k] != '\n' by {
        forall k | 0 <= k < j ensures text[k] != '\n' {
          assert !PrefixAt(text, "\n", k);
          assert text[k..k + 1] == [text[k]];
        }
      }
      assert text[..j + 1] + text[j + 1..] == text;
      (text[..j + 1], text[j + 1..])
  }

  /** `get_next_file`: pop the last path and open it; a path that cannot be opened panics. */
  function NextFileEffect(d: LegacyData): (r: Result<(LegacyData, bool), Fault>)
    ensures r.Ok? && r.value.1 ==> |r.value.0.files| + 1 == |d.files| && r.value.0.currentFile.Some?
    ensures r.Ok? && !r.value.1 <==> |d.files| == 0
    ensures r.Ok? && !r.value.1 ==> r.value.0 == d
  {
    if |d.files| == 0 then Ok((d, false))
    else
      var path := d.files[|d.files| - 1];
      if path !in d.disk then Err(Panic("Failed to open file '" + path + "'"))
      else Ok((d.(files := d.files[..|d.files| - 1], currentFile := Some(d.disk[path])), true))
  }

  /** The loop of `next_line`: read a line; an empty read moves to the next file. */
  function ReadLoop(d: LegacyData): Result<(LegacyData, real), Fault>
    requires d.currentFile.Some?
    decreases |d.files|
  {
    var (line, rest) := ReadLine(d.currentFile.value);
    var d1 := d.(currentFile := Some(rest));
    if |line| == 0 then
      match NextFileEffect(d1)
      case Err(f) => Err(f)
      case Ok(step) => if step.1 then ReadLoop(step.0) else Ok((step.0, 0.0))
    else Ok((d1.(fullLine := Some(line)), 1.0))
  }

  /** `next_line`: 1.0 with `full_line` set to the next non-empty read, or 0.0. */
  function NextLineEffect(d: LegacyData): Result<(LegacyData, real), Fault>
  {
    if d.currentFile.None? then
      match NextFileEffect(d)
      case Err(f) => Err(f)
      case Ok(step) => if step.1 then ReadLoop(step.0) else Ok((step.0, 0.0))
    else ReadLoop(d)
  }

  /** `round() as i64`: half away from zero. */
  function RoundToInt(x: real): (n: int)
    ensures -0.5 <= x - n as real <= 0.5
    ensures x >= 0.0 ==> n as real <= x + 0.5 < n as real + 1.0
    ensures x < 0.0 ==> n as real - 1.0 < x - 0.5 <= n as real
  {
    if x >= 0.0 then (x + 0.5).Floor else -((-x + 0.5).Floor)
  }

  /** The column number of `column`'s (tag, value, pointer) argument triple. */
  function ColumnNumber(d: LegacyData, num: Numerics, tag: u8, value: real, p: Handle): Result<int, Fault>
  {
    if tag == FLOAT_TAG then Ok(RoundToInt(value))
    else if tag == STRING_TAG then
      match Load(d.heap, p)
      case Err(f) => Err(f)
      case Ok(s) =>
        match num.parse(s)
        case None => Err(Panic("couldn't convert string to number " + s))
        case Some(x) => Ok(RoundToInt(x))
    else Err(Panic("Called column with bad tag: " + Decimal(tag as nat)))
  }

  /** The text `column` returns for column number `n` of `line`. */
  function ColumnText(line: string, rs: char, n: int): string
  {
    var pieces := Split(line, [rs]);
    if n == 0 then line
    else if 1 <= n <= |pieces| then pieces[n - 1]
    else ""
  }

  /** `column`: "" before any line was read; otherwise a new allocation holding the column. */
  function ColumnEffect(d: LegacyData, num: Numerics, tag: u8, value: real, p: Handle): (r: Result<(LegacyData, Handle), Fault>)
    ensures r.Ok? ==> r.value.0 == d.(heap := r.value.0.heap)
    ensures r.Ok? ==>
      r.value.1 in r.value.0.heap.cells
      && r.value.0.heap.cells == d.heap.cells[r.value.1 := r.value.0.heap.cells[r.value.1]]
    ensures r.Ok? && Valid(d.heap) ==> Valid(r.value.0.heap) && !Live(d.heap, r.value.1)
  {
    if d.fullLine.None? then
      var (heap, q) := Alloc(d.heap, "");
      Ok((d.(heap := heap), q))
    else
      match ColumnNumber(d, num, tag, value, p)
      case Err(f) => Err(f)
      case Ok(n) =>
        var (heap, q) := Alloc(d.heap, ColumnText(d.fullLine.value, d.rs, n));
        Ok((d.(heap := heap), q))
  }

  /** `print_string_capture`: no canary check in this runtime. */
  function PrintStringCaptureEffect(d: LegacyData, p: Handle): (r: Result<LegacyData, Fault>)
    ensures r.Ok? <==> Live(d.heap, p)
    ensures r.Ok? ==> r.value == d.(output := d.output + LiveRuntime.Printed(d.heap.cells[p]))
  {
    match Load(d.heap, p)
    case Err(f) => Err(f)
    case Ok(s) => Ok(d.(output := d.output + LiveRuntime.Printed(s)))
  }

  /** `string_to_number`: a float tag is refused; the pointer must hold a number. */
  function StringToNumberEffect(d: LegacyData, num: Numerics, tag: u8, p: Handle): (r: Result<real, Fault>)
    ensures tag == FLOAT_TAG ==> r == Err(Panic("Tried to convert number to number????"))
    ensures r.Ok? <==> tag != FLOAT_TAG && Live(d.heap, p) && num.parse(d.heap.cells[p]).Some?
    ensures r.Ok? ==> r.value == num.parse(d.heap.cells[p]).value
  {
    if tag == FLOAT_TAG then Err(Panic("Tried to convert number to number????"))
    else
      match Load(d.heap, p)
      case Err(f) => Err(f)
      case Ok(s) =>
        match num.parse(s)
        case None => Err(Panic("couldn't convert string to number " + s))
        case Some(x) => Ok(x)
  }

  /** `number_to_string`: only a float tag may be formatted. */
  function NumberToStringEffect(d: LegacyData, num: Numerics, tag: u8, value: real): (r: Result<(LegacyData, Handle), Fault>)
    ensures r.Err? <==> tag != FLOAT_TAG
    ensures r.Ok? ==> r.value.0.heap.cells == d.heap.cells[r.value.1 := num.show(value)]
  {
    if tag != FLOAT_TAG then Err(Panic("Tried to convert non-number to string"))
    else
      var (heap, q) := Alloc(d.heap, num.show(LiveRuntime.Normalised(value)));
      Ok((d.(heap := heap), q))
  }

  // ---------------------------------------------------------------- properties

  /** Paths are opened from the end of the list: the k-th file opened is the k-th from last. */
  lemma {:induction false} FilesOpenedFromTheEnd(d: LegacyData, k: nat)
    requires k < |d.files| && forall path :: path in d.files ==> path in d.disk
    ensures OpenedAfter(d, k + 1).Ok?
    ensures OpenedAfter(d, k + 1).value == d.disk[d.files[|d.files| - 1 - k]]
    decreases k
  {
    var step := NextFileEffect(d).value.0;
    assert step.files == d.files[..|d.files| - 1];
    if k > 0 {
      forall path | path in step.files ensures path in step.disk {
        assert path in d.files;
      }
      FilesOpenedFromTheEnd(step, k - 1);
      assert step.files[|step.files| - 1 - (k - 1)] == d.files[|d.files| - 1 - k];
    }
  }

  /** The contents of the file opened by the n-th of n successive `get_next_file` calls. */
  function OpenedAfter(d: LegacyData, n: nat): Result<string, Fault>
    requires n > 0
    decreases n
  {
    match NextFileEffect(d)
    case Err(f) => Err(f)
    case Ok(step) =>
      if !step.1 then Err(Panic("no file left"))
      else if n == 1 then Ok(step.0.currentFile.value)
      else OpenedAfter(step.0, n - 1)
  }

  /** With nothing open and no path left, `next_line` reports 0.0 and changes nothing. */
  lemma NoInputGivesZero(d: LegacyData)
    requires d.currentFile.None? && |d.files| == 0
    ensures NextLineEffect(d) == Ok((d, 0.0))
  {
  }

  /** A 1.0 from `next_line` comes with the line read in `full_line`: non-empty, and ending in
      a newline unless it is the unterminated end of its file. */
  lemma {:induction false} ReadLoopSetsLine(d: LegacyData)
    requires d.currentFile.Some?
    requires ReadLoop(d).Ok?
    ensures var (d', flag) := ReadLoop(d).value;
      (flag == 1.0 || flag == 0.0)
      && (flag == 1.0 ==>
            d'.fullLine.Some? && |d'.fullLine.value| > 0
            && (LiveRuntime.EndsWithNewline(d'.fullLine.value) || d'.currentFile == Some("")))
      && (flag == 0.0 ==> |d'.files| == 0 && d'.currentFile == Some("") && d'.fullLine == d.fullLine)
    decreases |d.files|
  {
    var (line, rest) := ReadLine(d.currentFile.value);
    var d1 := d.(currentFile := Some(rest));
    if |line| == 0 {
      var step := NextFileEffect(d1).value;
      if step.1 {
        ReadLoopSetsLine(step.0);
      }
    }
  }

  /** An exhausted input stays exhausted: after a 0.0, every later call gives 0.0 again. */
  lemma ExhaustionIsPermanent(d: LegacyData)
    requires NextLineEffect(d).Ok? && NextLineEffect(d).value.1 == 0.0
    ensures var d' := NextLineEffect(d).value.0;
      NextLineEffect(d') == Ok((d', 0.0))
  {
    if d.currentFile.None? {
      var step := NextFileEffect(d).value;
      if step.1 {
        ReadLoopSetsLine(step.0);
      }
    } else {
      ReadLoopSetsLine(d);
    }
  }

  /** An empty open file is skipped in favour of the next path. */
  lemma EmptyFileSkipped(d: LegacyData)
    requires d.currentFile == Some("") && |d.files| > 0 && d.files[|d.files| - 1] in d.disk
    ensures NextLineEffect(d) == ReadLoop(d.(files := d.files[..|d.files| - 1],
                                             currentFile := Some(d.disk[d.files[|d.files| - 1]])))
  {
    assert ReadLine("") == ("", "");
  }

  /** `column` before any line, at 0, and at n >= 1 (pieces of the line split on RS). */
  lemma ColumnCases(d: LegacyData, num: Numerics, value: real, p: Handle)
    ensures d.fullLine.None? ==>
      ColumnEffect(d, num, FLOAT_TAG, value, p).Ok?
      && ColumnEffect(d, num, FLOAT_TAG, value, p).value.0.heap.cells
         == d.heap.cells[ColumnEffect(d, num, FLOAT_TAG, value, p).value.1 := ""]
    ensures d.fullLine.Some? ==>
      var n := RoundToInt(value);
      var pieces := Split(d.fullLine.value, [d.rs]);
      var (d', q) := ColumnEffect(d, num, FLOAT_TAG, value, p).value;
      d'.heap.cells[q] == (if n == 0 then d.fullLine.value
                           else if 1 <= n <= |pieces| then pieces[n - 1]
                           else "")
  {
  }

  /** A STRING_TAG index is the parse of the string it points to, rounded: the column is
      that column's text; a string that does not parse panics naming it. */
  lemma ColumnOfStringIndex(d: LegacyData, num: Numerics, value: real, p: Handle, s: string)
    requires d.fullLine.Some? && Load(d.heap, p) == Ok(s)
    ensures num.parse(s).None? ==>
      ColumnEffect(d, num, STRING_TAG, value, p) == Err(Panic("couldn't convert string to number " + s))
    ensures num.parse(s).Some? ==>
      ColumnEffect(d, num, STRING_TAG, value, p).Ok?
      && var (d', q) := ColumnEffect(d, num, STRING_TAG, value, p).value;
         d'.heap.cells[q] == ColumnText(d.fullLine.value, d.rs, RoundToInt(num.parse(s).value))
  {
  }

  /** Tags other than the two known ones abort once a line has been read. */
  lemma ColumnBadTag(d: LegacyData, num: Numerics, tag: u8, value: real, p: Handle)
    requires d.fullLine.Some? && tag != FLOAT_TAG && tag != STRING_TAG
    ensures ColumnEffect(d, num, tag, value, p) == Err(Panic("Called column with bad tag: " + Decimal(tag as nat)))
  {
  }

  /** With the initial separators, the columns of "1 2 3\n" are "1", "2" and "3\n". */
  lemma ColumnsOfSampleLine()
    ensures ColumnText("1 2 3\n", ' ', 1) == "1"
    ensures ColumnText("1 2 3\n", ' ', 3) == "3\n"
    ensures ColumnText("1 2 3\n", ' ', 4) == ""
  {
    var text := "1 2 3\n";
    assert PrefixAt(text, " ", 1) by { assert text[1..2] == " "; }
    assert FirstMatch(text, " ", 0) == Some(1) by { assert text[0] == '1'; assert text[0..1] == [text[0]]; }
    var r1 := text[2..];
    assert r1 == "2 3\n";
    assert PrefixAt(r1, " ", 1) by { assert r1[1..2] == " "; }
    assert FirstMatch(r1, " ", 0) == Some(1) by { assert r1[0] == '2'; assert r1[0..1] == [r1[0]]; }
    var r2 := r1[2..];
    assert r2 == "3\n";
    assert FirstMatch(r2, " ", 0) == None by {
      assert !PrefixAt(r2, " ", 0) by { assert r2[0..1] == "3"; }
      assert !PrefixAt(r2, " ", 1) by { assert r2[1..2] == "\n"; }
    }
    assert Split(r2, " ") == ["3\n"];
    assert r1[..1] == "2" && r1[2..] == r2;
    assert Split(r1, " ") == ["2", "3\n"];
    assert text[..1] == "1";
    assert Split(text, " ") == ["1", "2", "3\n"];
  }

  // ---------------------------------------------------------------- the runtime object

  class Legacy {
    var rs: char
    var fs: char
    var files: seq<string>
    var currentFile: Option<string>
    var fullLine: Option<string>
    var output: string
    var heap: Heap
    const disk: map<string, string>

    ghost function Data(): LegacyData
      reads this
    {
      LegacyData(rs, fs, files, currentFile, fullLine, output, heap, disk)
    }

    constructor(paths: seq<string>, contents: map<string, string>, heap0: Heap)
      ensures Data() == NewLegacyData(paths, contents, heap0)
    {
      rs := ' ';
      fs := '\n';
      files := paths;
      currentFile := None;
      fullLine := None;
      output := "";
      heap := heap0;
      disk := contents;
    }

    method GetNextFile() returns (r: Result<bool, Fault>)
      modifies this
      ensures Agrees(r, Data(), NextFileEffect(old(Data())))
    {
      if |files| == 0 {
        return Ok(false);
      }
      var path := files[|files| - 1];
      files := files[..|files| - 1];
      if path !in disk {
        return Err(Panic("Failed to open file '" + path + "'"));
      }
      currentFile := Some(disk[path]);
      return Ok(true);
    }

    method NextLine() returns (r: Result<real, Fault>)
      modifies this
      ensures Agrees(r, Data(), NextLineEffect(old(Data())))
    {
      if currentFile.None? {
        var gotFile := GetNextFile();
        if gotFile.Err? {
          return Err(gotFile.error);
        }
        if !gotFile.value {
          return Ok(0.0);
        }
      }
      while true
        invariant currentFile.Some?
        invariant NextLineEffect(old(Data())) == ReadLoop(Data())
        decreases |files|
      {
        var (line, rest) := ReadLine(currentFile.value);
        currentFile := Some(rest);
        if |line| == 0 {
          var gotFile := GetNextFile();
          if gotFile.Err? {
            return Err(gotFile.error);
          }
          if !gotFile.value {
            return Ok(0.0);
          }
        } else {
          fullLine := Some(line);
          return Ok(1.0);
        }
      }
    }

    /** `column`, with its loop over the enumerated pieces of the line. */
    method Column(num: Numerics, tag: u8, value: real, p: Handle) returns (r: Result<Handle, Fault>)
      modifies this
      ensures Agrees(r, Data(), ColumnEffect(old(Data()), num, tag, value, p))
    {
      if fullLine.None? {
        var q;
        heap, q := Alloc(heap, "").0, Alloc(heap, "").1;
        return Ok(q);
      }
      var n: int;
      if tag == FLOAT_TAG {
        n := RoundToInt(value);
      } else if tag == STRING_TAG {
        if p !in heap.cells {
          return Err(UseAfterFree(p));
        }
        var parsed := num.parse(heap.cells[p]);
        if parsed.None? {
          return Err(Panic("couldn't convert string to number " + heap.cells[p]));
        }
        n := RoundToInt(parsed.value);
      } else {
        return Err(Panic("Called column with bad tag: " + Decimal(tag as nat)));
      }
      var line := fullLine.value;
      var text := "";
      if n == 0 {
        text := line;
      } else {
        var pieces := Split(line, [rs]);
        var idx := 0;
        while idx < |pieces| && idx + 1 != n
          invariant 0 <= idx <= |pieces|
          invariant !(1 <= n <= idx)
        {
          idx := idx + 1;
        }
        if idx < |pieces| {
          text := pieces[idx];
        }
      }
      var q;
      heap, q := Alloc(heap, text).0, Alloc(heap, text).1;
      return Ok(q);
    }

    method PrintStringCapture(p: Handle) returns (r: Result<(), Fault>)
      modifies this
      ensures Agrees(r, Data(), match PrintStringCaptureEffect(old(Data()), p)
                                case Ok(d) => Ok((d, ()))
                                case Err(f) => Err(f))
    {
      if p !in heap.cells {
        return Err(UseAfterFree(p));
      }
      output := output + LiveRuntime.Printed(heap.cells[p]);
      return Ok(());
    }

    method StringToNumber(num: Numerics, tag: u8, p: Handle) returns (r: Result<real, Fault>)
      ensures r == StringToNumberEffect(Data(), num, tag, p)
    {
      if tag == FLOAT_TAG {
        return Err(Panic("Tried to convert number to number????"));
      }
      if p !in heap.cells {
        return Err(UseAfterFree(p));
      }
      var parsed := num.parse(heap.cells[p]);
      if parsed.None? {
        return Err(Panic("couldn't convert string to number " + heap.cells[p]));
      }
      return Ok(parsed.value);
    }

    method NumberToString(num: Numerics, tag: u8, value: real) returns (r: Result<Handle, Fault>)
      modifies this
      ensures Agrees(r, Data(), NumberToStringEffect(old(Data()), num, tag, value))
    {
      if tag != FLOAT_TAG {
        return Err(Panic("Tried to convert non-number to string"));
      }
      var text := num.show(LiveRuntime.Normalised(value));
      var q;
      heap, q := Alloc(heap, text).0, Alloc(heap, text).1;
      return Ok(q);
    }
  }
}
