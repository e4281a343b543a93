// The runtime used when a program's output is captured: the same entry points as the
// live runtime, each of which first records itself in the call log, and whose printers
// append to the `output` buffer.

module TestingRuntime {
  import opened Wrappers
  import opened Numbers
  import opened StringHeap
  import ColumnStore
  import opened CallLog
  import LiveRuntime

  datatype TestData = TestData(
    columns: ColumnStore.ColumnsState,
    canary: string,
    output: string,
    heap: Heap,
    calls: seq<Call>)

  /** `RuntimeData::new` of the testing runtime. */
  function NewTestData(paths: seq<string>, disk: map<string, string>, heap: Heap): Result<TestData, Fault>
  {
    match ColumnStore.NewColumns(paths, disk)
    case Err(f) => Err(f)
    case Ok(c) => Ok(TestData(c, LiveRuntime.CANARY, "", heap, []))
  }

  /** `cast_to_runtime_data` then `data.calls.log(call)`. */
  function Entered(t: TestData, call: Call): (r: Result<TestData, Fault>)
    ensures r.Ok? <==> t.canary == LiveRuntime.CANARY
    ensures r.Ok? ==> r.value == t.(calls := t.calls + [call])
    ensures r.Err? ==> r.error == Exit(-1)
  {
    if t.canary != LiveRuntime.CANARY then Err(Exit(-1)) else Ok(t.(calls := t.calls + [call]))
  }

  function PrintStringEffect(t: TestData, p: Handle): (r: Result<TestData, Fault>)
    ensures r.Ok? <==> t.canary == LiveRuntime.CANARY && Live(t.heap, p)
  {
    match Entered(t, PrintString)
    case Err(f) => Err(f)
    case Ok(t) =>
      match Load(t.heap, p)
      case Err(f) => Err(f)
      case Ok(s) => Ok(t.(output := t.output + LiveRuntime.Printed(s)))
  }

  function PrintFloatEffect(t: TestData, num: Numerics, x: real): (r: Result<TestData, Fault>)
    ensures r.Ok? <==> t.canary == LiveRuntime.CANARY
  {
    match Entered(t, PrintFloat)
    case Err(f) => Err(f)
    case Ok(t) => Ok(t.(output := t.output + num.show(x) + "\n"))
  }

  /** `next_line`: logged, then 1.0 when the record store accepted another record, else 0.0. */
  function NextLineEffect(t: TestData): (r: Result<(TestData, real), Fault>)
    ensures r.Ok? ==> r.value.1 == 1.0 || r.value.1 == 0.0
    ensures t.canary != LiveRuntime.CANARY ==> r == Err(Exit(-1))
    ensures t.canary == LiveRuntime.CANARY ==> (r.Ok? <==> ColumnStore.NextRecord(t.columns).Ok?)
    ensures r.Ok? ==> var next := ColumnStore.NextRecord(t.columns).value;
      r.value == (t.(columns := next.0, calls := t.calls + [NextLine]), if next.1 then 1.0 else 0.0)
  {
    match Entered(t, NextLine)
    case Err(f) => Err(f)
    case Ok(t) =>
      match ColumnStore.NextRecord(t.columns)
      case Err(f) => Err(f)
      case Ok(next) => Ok((t.(columns := next.0), if next.1 then 1.0 else 0.0))
  }

  function StringToNumberEffect(t: TestData, num: Numerics, p: Handle): (r: Result<(TestData, real), Fault>)
    ensures r.Ok? <==> t.canary == LiveRuntime.CANARY && Live(t.heap, p) && num.parse(t.heap.cells[p]).Some?
    ensures r.Ok? ==> r.value.1 == num.parse(t.heap.cells[p]).value
  {
    match Entered(t, StringToNumber)
    case Err(f) => Err(f)
    case Ok(t) =>
      match Load(t.heap, p)
      case Err(f) => Err(f)
      case Ok(s) =>
        match num.parse(s)
        case None => Err(Panic("couldn't convert string to number " + s))
        case Some(x) => Ok((t, x))
  }

  /** The index `column` uses: the float itself, or the string parsed (and logged) by
      this runtime's own `string_to_number`. */
  function ColumnIndex(t: TestData, num: Numerics, tag: u8, value: real, p: Handle): Result<(TestData, real), Fault>
  {
    if tag == FLOAT_TAG then Ok((t, value)) else StringToNumberEffect(t, num, p)
  }

  /** `column`: the string index goes through this runtime's own `string_to_number`, which
      logs as well; the `Column` entry is logged after the field has been read. */
  function ColumnEffect(t: TestData, num: Numerics, tag: u8, value: real, p: Handle): (r: Result<(TestData, Handle), Fault>)
    ensures t.canary != LiveRuntime.CANARY ==> r == Err(Exit(-1))
    ensures r.Ok? <==> t.canary == LiveRuntime.CANARY && ColumnIndex(t, num, tag, value, p).Ok?
    ensures r.Ok? ==>
      var (t1, x) := ColumnIndex(t, num, tag, value, p).value;
      var field := ColumnStore.Field(t.columns, RoundToIndex(x));
      && r.value.0.columns == t.columns && r.value.0.output == t.output && r.value.0.canary == t.canary
      && r.value.0.calls == t1.calls + [Column(x, field)]
      && r.value.1 in r.value.0.heap.cells
      && r.value.0.heap.cells == t.heap.cells[r.value.1 := field]
      && (Valid(t.heap) ==> Valid(r.value.0.heap) && !Live(t.heap, r.value.1))
  {
    if t.canary != LiveRuntime.CANARY then Err(Exit(-1))
    else
      match ColumnIndex(t, num, tag, value, p)
      case Err(f) => Err(f)
      case Ok(step) =>
        var (t1, idxF) := step;
        var field := ColumnStore.Field(t1.columns, RoundToIndex(idxF));
        var (heap, q) := Alloc(t1.heap, field);
        Ok((t1.(calls := t1.calls + [Column(idxF, field)], heap := heap), q))
  }

  function FreeStringEffect(t: TestData, p: Handle): (r: Result<(TestData, real), Fault>)
  {
    match Entered(t, FreeString)
    case Err(f) => Err(f)
    case Ok(t) =>
      match Release(t.heap, p)
      case Err(f) => Err(f)
      case Ok(heap) => Ok((t.(heap := heap), 0.0))
  }

  function NumberToStringEffect(t: TestData, num: Numerics, tag: u8, value: real): (r: Result<(TestData, Handle), Fault>)
  {
    match Entered(t, NumberToString)
    case Err(f) => Err(f)
    case Ok(t) =>
      if tag != FLOAT_TAG then Err(Panic("Tried to convert non-number to string"))
      else
        var (heap, q) := Alloc(t.heap, num.show(LiveRuntime.Normalised(value)));
        Ok((t.(heap := heap), q))
  }

  function CopyStringEffect(t: TestData, p: Handle): (r: Result<(TestData, Handle), Fault>)
  {
    match Entered(t, CopyString)
    case Err(f) => Err(f)
    case Ok(t) =>
      match Duplicate(t.heap, p)
      case Err(f) => Err(f)
      case Ok(step) => Ok((t.(heap := step.0), step.1))
  }

  // ---------------------------------------------------------------- properties

  /** Each entry point logs exactly one call of its own kind and otherwise does what the
      live runtime's entry point does. */
  lemma EntryPointsLogOnce(t: TestData, num: Numerics, tag: u8, x: real, p: Handle)
    requires t.canary == LiveRuntime.CANARY
    ensures PrintStringEffect(t, p).Ok? ==> PrintStringEffect(t, p).value.calls == t.calls + [PrintString]
    ensures PrintFloatEffect(t, num, x).Ok? ==> PrintFloatEffect(t, num, x).value.calls == t.calls + [PrintFloat]
    ensures NextLineEffect(t).Ok? ==> NextLineEffect(t).value.0.calls == t.calls + [NextLine]
    ensures StringToNumberEffect(t, num, p).Ok? ==> StringToNumberEffect(t, num, p).value.0.calls == t.calls + [StringToNumber]
    ensures FreeStringEffect(t, p).Ok? ==> FreeStringEffect(t, p).value.0.calls == t.calls + [FreeString]
    ensures NumberToStringEffect(t, num, tag, x).Ok? ==> NumberToStringEffect(t, num, tag, x).value.0.calls == t.calls + [NumberToString]
    ensures CopyStringEffect(t, p).Ok? ==> CopyStringEffect(t, p).value.0.calls == t.calls + [CopyString]
  {
  }

  /** The capturing printers agree with the live runtime's: string lines get a newline
      unless they end with one, numbers always get one; the heap is not touched. */
  lemma PrintersCapture(t: TestData, num: Numerics, x: real, p: Handle)
    requires t.canary == LiveRuntime.CANARY
    ensures Live(t.heap, p) ==>
      var s := t.heap.cells[p];
      && PrintStringEffect(t, p).value.output == t.output + s + (if LiveRuntime.EndsWithNewline(s) then "" else "\n")
      && PrintStringEffect(t, p).value.heap == t.heap
    ensures PrintFloatEffect(t, num, x).value.output == t.output + num.show(x) + "\n"
  {
  }

  /** `column` logs the index it used and the very text it returns; a string index is
      parsed first, which logs `StringToNumber` before `Column`. */
  lemma ColumnLogsWhatItReturns(t: TestData, num: Numerics, tag: u8, value: real, p: Handle)
    requires ColumnEffect(t, num, tag, value, p).Ok?
    ensures var (t', q) := ColumnEffect(t, num, tag, value, p).value;
      && Live(t'.heap, q)
      && |t'.calls| > 0 && t'.calls[|t'.calls| - 1].Column?
      && t'.calls[|t'.calls| - 1].text == t'.heap.cells[q]
      && t'.calls == t.calls + (if tag == FLOAT_TAG then [] else [StringToNumber]) + [t'.calls[|t'.calls| - 1]]
      && (tag == FLOAT_TAG ==> t'.calls[|t'.calls| - 1].index == value)
      && (Valid(t.heap) ==> !Live(t.heap, q))
  {
  }

  /** `copy_string` gives a fresh handle to equal text and leaves the original live;
      `free_string` releases exactly its argument. */
  lemma CopyAndFree(t: TestData, p: Handle)
    requires t.canary == LiveRuntime.CANARY && Valid(t.heap)
    ensures CopyStringEffect(t, p).Ok? <==> Live(t.heap, p)
    ensures FreeStringEffect(t, p).Ok? <==> Live(t.heap, p)
    ensures Live(t.heap, p) ==>
      var (t', q) := CopyStringEffect(t, p).value;
      && q != p && !Live(t.heap, q) && t'.heap.cells == t.heap.cells[q := t.heap.cells[p]]
    ensures Live(t.heap, p) ==> FreeStringEffect(t, p).value.0.heap.cells == t.heap.cells - {p}
  {
  }

  /** Unparsable text and non-float tags abort; a damaged canary exits. */
  lemma ConversionsAbort(t: TestData, num: Numerics, tag: u8, x: real, p: Handle)
    ensures t.canary == LiveRuntime.CANARY && tag != FLOAT_TAG ==>
      NumberToStringEffect(t, num, tag, x) == Err(Panic("Tried to convert non-number to string"))
    ensures t.canary == LiveRuntime.CANARY && Live(t.heap, p) && num.parse(t.heap.cells[p]).None? ==>
      StringToNumberEffect(t, num, p) == Err(Panic("couldn't convert string to number " + t.heap.cells[p]))
    ensures t.canary != LiveRuntime.CANARY ==>
      && PrintStringEffect(t, p) == Err(Exit(-1)) && PrintFloatEffect(t, num, x) == Err(Exit(-1))
      && NextLineEffect(t) == Err(Exit(-1)) && ColumnEffect(t, num, tag, x, p) == Err(Exit(-1))
      && FreeStringEffect(t, p) == Err(Exit(-1)) && StringToNumberEffect(t, num, p) == Err(Exit(-1))
      && NumberToStringEffect(t, num, tag, x) == Err(Exit(-1)) && CopyStringEffect(t, p) == Err(Exit(-1))
  {
  }

  // ---------------------------------------------------------------- the runtime object

  class TestRuntime {
    var columns: ColumnStore.Columns
    var canary: string
    var output: string
    var heap: Heap
    var calls: CallLog

    ghost function Data(): TestData
      reads this, columns, calls
    {
      TestData(columns.State(), canary, output, heap, calls.log)
    }

    constructor Init(store: ColumnStore.Columns, heap0: Heap)
      ensures columns == store && canary == LiveRuntime.CANARY && output == "" && heap == heap0
      ensures fresh(calls) && calls.log == []
    {
      columns := store;
      canary := LiveRuntime.CANARY;
      output := "";
      heap := heap0;
      calls := new CallLog();
    }

    static method New(paths: seq<string>, disk: map<string, string>, heap0: Heap) returns (r: Result<TestRuntime, Fault>)
      ensures r.Ok? <==> NewTestData(paths, disk, heap0).Ok?
      ensures r.Ok? ==> (fresh(r.value) && fresh(r.value.columns) && fresh(r.value.calls)
                         && r.value.Data() == NewTestData(paths, disk, heap0).value)
      ensures r.Err? ==> r.error == NewTestData(paths, disk, heap0).error
    {
      var c := ColumnStore.Columns.New(paths, disk);
      if c.Err? {
        return Err(c.error);
      }
      var rt := new TestRuntime.Init(c.value, heap0);
      return Ok(rt);
    }

    /** `cast_to_runtime_data` followed by `data.calls.log(call)`. */
    method Enter(call: Call) returns (r: Result<(), Fault>)
      modifies calls
      ensures Agrees(r, Data(), match Entered(old(Data()), call)
                                case Ok(t) => Ok((t, ()))
                                case Err(f) => Err(f))
    {
      if canary != LiveRuntime.CANARY {
        return Err(Exit(-1));
      }
      calls.Log(call);
      return Ok(());
    }

    method PrintString(p: Handle) returns (r: Result<(), Fault>)
      modifies this, calls
      ensures unchanged(this`columns) && unchanged(this`calls)
      ensures Agrees(r, Data(), match PrintStringEffect(old(Data()), p)
                                case Ok(t) => Ok((t, ()))
                                case Err(f) => Err(f))
    {
      r := Enter(Call.PrintString);
      if r.Err? {
        return;
      }
      if p !in heap.cells {
        return Err(UseAfterFree(p));
      }
      output := output + LiveRuntime.Printed(heap.cells[p]);
    }

    method PrintFloat(num: Numerics, x: real) returns (r: Result<(), Fault>)
      modifies this, calls
      ensures unchanged(this`columns) && unchanged(this`calls)
      ensures Agrees(r, Data(), match PrintFloatEffect(old(Data()), num, x)
                                case Ok(t) => Ok((t, ()))
                                case Err(f) => Err(f))
    {
      r := Enter(Call.PrintFloat);
      if r.Err? {
        return;
      }
      output := output + num.show(x) + "\n";
    }

    method NextLine() returns (r: Result<real, Fault>)
      modifies this, columns, calls
      ensures unchanged(this`columns) && unchanged(this`calls)
      ensures Agrees(r, Data(), NextLineEffect(old(Data())))
    {
      var entered := Enter(Call.NextLine);
      if entered.Err? {
        return Err(entered.error);
      }
      var more := columns.NextLine();
      if more.Err? {
        return Err(more.error);
      }
      return Ok(if more.value then 1.0 else 0.0);
    }

    method StringToNumber(num: Numerics, p: Handle) returns (r: Result<real, Fault>)
      modifies calls
      ensures Agrees(r, Data(), StringToNumberEffect(old(Data()), num, p))
    {
      var entered := Enter(Call.StringToNumber);
      if entered.Err? {
        return Err(entered.error);
      }
      if p !in heap.cells {
        return Err(UseAfterFree(p));
      }
      var s := heap.cells[p];
      var parsed := num.parse(s);
      if parsed.None? {
        return Err(Panic("couldn't convert string to number " + s));
      }
      return Ok(parsed.value);
    }

    method Column(num: Numerics, tag: u8, value: real, p: Handle) returns (r: Result<Handle, Fault>)
      modifies this, calls
      ensures unchanged(this`columns) && unchanged(this`calls)
      ensures Agrees(r, Data(), ColumnEffect(old(Data()), num, tag, value, p))
    {
      if canary != LiveRuntime.CANARY {
        return Err(Exit(-1));
      }
      var idxF: real;
      if tag == FLOAT_TAG {
        idxF := value;
      } else {
        var parsed := StringToNumber(num, p);
        if parsed.Err? {
          return Err(parsed.error);
        }
        idxF := parsed.value;
      }
      var field := columns.Get(RoundToIndex(idxF));
      calls.Log(Call.Column(idxF, field));
      var q;
      heap, q := Alloc(heap, field).0, Alloc(heap, field).1;
      return Ok(q);
    }

    method FreeString(p: Handle) returns (r: Result<real, Fault>)
      modifies this, calls
      ensures unchanged(this`columns) && unchanged(this`calls)
      ensures Agrees(r, Data(), FreeStringEffect(old(Data()), p))
    {
      var entered := Enter(Call.FreeString);
      if entered.Err? {
        return Err(entered.error);
      }
      if p !in heap.cells {
        return Err(UseAfterFree(p));
      }
      heap := Heap(heap.cells - {p}, heap.next);
      return Ok(0.0);
    }

    method NumberToString(num: Numerics, tag: u8, value: real) returns (r: Result<Handle, Fault>)
      modifies this, calls
      ensures unchanged(this`columns) && unchanged(this`calls)
      ensures Agrees(r, Data(), NumberToStringEffect(old(Data()), num, tag, value))
    {
      var entered := Enter(Call.NumberToString);
      if entered.Err? {
        return Err(entered.error);
      }
      if tag != FLOAT_TAG {
        return Err(Panic("Tried to convert non-number to string"));
      }
      var text := num.show(LiveRuntime.Normalised(value));
      var q;
      heap, q := Alloc(heap, text).0, Alloc(heap, text).1;
      return Ok(q);
    }

    method CopyString(p: Handle) returns (r: Result<Handle, Fault>)
      modifies this, calls
      ensures unchanged(this`columns) && unchanged(this`calls)
      ensures Agrees(r, Data(), CopyStringEffect(old(Data()), p))
    {
      var entered := Enter(Call.CopyString);
      if entered.Err? {
        return Err(entered.error);
      }
      if p !in heap.cells {
        return Err(UseAfterFree(p));
      }
      var q;
      heap, q := Alloc(heap, heap.cells[p]).0, Alloc(heap, heap.cells[p]).1;
      return Ok(q);
    }
  }
}
