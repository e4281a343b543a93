// The runtime entry points the generated code calls when a program runs for real:
// printing, record iteration, field access and the string-box helpers. Each works on
// the runtime data behind an opaque pointer that is checked against a canary first.

module LiveRuntime {
  import opened Wrappers
  import opened Numbers
  import opened StringHeap
  import ColumnStore

  const CANARY: string := "this is the canary!"

  datatype RuntimeData = RuntimeData(
    columns: ColumnStore.ColumnsState,
    canary: string,
    output: string,   // text captured by the `*_capture` printers
    heap: Heap)

  /** `RuntimeData::new`: the canary, a fresh record store and an empty capture buffer. */
  function NewRuntimeData(paths: seq<string>, disk: map<string, string>, heap: Heap): Result<RuntimeData, Fault>
  {
    match ColumnStore.NewColumns(paths, disk)
    case Err(f) => Err(f)
    case Ok(c) => Ok(RuntimeData(c, CANARY, "", heap))
  }

  /** `cast_to_runtime_data`: the process exits with status -1 unless the canary is intact. */
  function CastToRuntimeData(d: RuntimeData): (r: Result<RuntimeData, Fault>)
    ensures r.Ok? <==> d.canary == CANARY
    ensures r.Ok? ==> r.value == d
    ensures r.Err? ==> r.error == Exit(-1)
  {
    if d.canary != CANARY then Err(Exit(-1)) else Ok(d)
  }

  predicate EndsWithNewline(s: string)
  {
    |s| > 0 && s[|s| - 1] == '\n'
  }

  /** The text a string print adds: the string, plus "\n" unless it already ends with one. */
  function Printed(s: string): (line: string)
    ensures EndsWithNewline(line)
    ensures |line| == if EndsWithNewline(s) then |s| else |s| + 1
    ensures line[..|s|] == s
  {
    if EndsWithNewline(s) then s else s + "\n"
  }

  /** Printing never loses or doubles a final newline: the printed line determines the string
      up to that one newline. */
  lemma PrintedInjective(s: string, t: string)
    requires Printed(s) == Printed(t)
    requires EndsWithNewline(s) == EndsWithNewline(t)
    ensures s == t
  {
    if !EndsWithNewline(s) {
      assert s == Printed(s)[..|s|];
      assert t == Printed(t)[..|t|];
    }
  }

  /** `print_string` (standard output): no canary check; the string stays allocated. */
  function PrintStringEffect(stdout: string, heap: Heap, p: Handle): (r: Result<string, Fault>)
    ensures r.Ok? <==> Live(heap, p)
    ensures r.Ok? ==> r.value == stdout + Printed(heap.cells[p])
  {
    match Load(heap, p)
    case Err(f) => Err(f)
    case Ok(s) => Ok(stdout + Printed(s))
  }

  /** `print_float` (standard output): one line holding the formatted number. */
  function PrintFloatEffect(stdout: string, num: Numerics, x: real): string
  {
    stdout + num.show(x) + "\n"
  }

  /** `print_string_capture`: append to `output`; the heap is not touched. */
  function PrintStringCaptureEffect(d: RuntimeData, p: Handle): (r: Result<RuntimeData, Fault>)
    ensures r.Ok? <==> d.canary == CANARY && Live(d.heap, p)
    ensures r.Ok? ==> r.value == d.(output := d.output + Printed(d.heap.cells[p]))
  {
    match CastToRuntimeData(d)
    case Err(f) => Err(f)
    case Ok(d) =>
      match Load(d.heap, p)
      case Err(f) => Err(f)
      case Ok(s) => Ok(d.(output := d.output + Printed(s)))
  }

  /** `print_float_capture`: append one newline-terminated line to `output`. */
  function PrintFloatCaptureEffect(d: RuntimeData, num: Numerics, x: real): (r: Result<RuntimeData, Fault>)
    ensures r.Ok? <==> d.canary == CANARY
    ensures r.Ok? ==> r.value == d.(output := d.output + num.show(x) + "\n")
  {
    match CastToRuntimeData(d)
    case Err(f) => Err(f)
    case Ok(d) => Ok(d.(output := d.output + num.show(x) + "\n"))
  }

  /** `next_line`: 1.0 when the record store accepted another record, else 0.0. */
  function NextLineEffect(d: RuntimeData): (r: Result<(RuntimeData, real), Fault>)
    ensures d.canary != CANARY ==> r == Err(Exit(-1))
    ensures d.canary == CANARY ==> (r.Ok? <==> ColumnStore.NextRecord(d.columns).Ok?)
    ensures r.Ok? ==> var next := ColumnStore.NextRecord(d.columns).value;
      r.value == (d.(columns := next.0), if next.1 then 1.0 else 0.0)
  {
    match CastToRuntimeData(d)
    case Err(f) => Err(f)
    case Ok(d) =>
      match ColumnStore.NextRecord(d.columns)
      case Err(f) => Err(f)
      case Ok(next) => Ok((d.(columns := next.0), if next.1 then 1.0 else 0.0))
  }

  /** `string_to_number`: parse the text; unparsable text aborts. The box is leaked, so the
      string stays live. No canary check. */
  function StringToNumberEffect(d: RuntimeData, num: Numerics, p: Handle): (r: Result<real, Fault>)
    ensures r.Ok? <==> Live(d.heap, p) && num.parse(d.heap.cells[p]).Some?
    ensures r.Ok? ==> r.value == num.parse(d.heap.cells[p]).value
    ensures Live(d.heap, p) && num.parse(d.heap.cells[p]).None? ==>
      r == Err(Panic("couldn't convert string to number " + d.heap.cells[p]))
  {
    match Load(d.heap, p)
    case Err(f) => Err(f)
    case Ok(s) =>
      match num.parse(s)
      case None => Err(Panic("couldn't convert string to number " + s))
      case Some(x) => Ok(x)
  }

  /** The column index a (tag, float, pointer) triple denotes: the float itself for
      `FLOAT_TAG`, otherwise the parsed string. */
  function ColumnIndex(d: RuntimeData, num: Numerics, tag: u8, value: real, p: Handle): Result<real, Fault>
  {
    if tag == FLOAT_TAG then Ok(value) else StringToNumberEffect(d, num, p)
  }

  /** `column`: a new allocation holding field `round(index)` of the current record. */
  function ColumnEffect(d: RuntimeData, num: Numerics, tag: u8, value: real, p: Handle): (r: Result<(RuntimeData, Handle), Fault>)
    ensures d.canary != CANARY ==> r == Err(Exit(-1))
    ensures r.Ok? <==> d.canary == CANARY && ColumnIndex(d, num, tag, value, p).Ok?
    ensures r.Ok? ==>
      var field := ColumnStore.Field(d.columns, RoundToIndex(ColumnIndex(d, num, tag, value, p).value));
      && r.value.0 == d.(heap := r.value.0.heap)
      && r.value.0.heap.cells == d.heap.cells[r.value.1 := field]
      && (Valid(d.heap) ==> Valid(r.value.0.heap) && !Live(d.heap, r.value.1))
  {
    match CastToRuntimeData(d)
    case Err(f) => Err(f)
    case Ok(d) =>
      match ColumnIndex(d, num, tag, value, p)
      case Err(f) => Err(f)
      case Ok(idx) =>
        var field := ColumnStore.Field(d.columns, RoundToIndex(idx));
        var (heap, q) := Alloc(d.heap, field);
        Ok((d.(heap := heap), q))
  }

  /** `free_string`: drop exactly the given allocation; no canary check. */
  function FreeStringEffect(d: RuntimeData, p: Handle): (r: Result<(RuntimeData, real), Fault>)
    ensures r.Ok? <==> Live(d.heap, p)
    ensures r.Ok? ==> (r.value.1 == 0.0 && r.value.0 == d.(heap := r.value.0.heap)
                       && r.value.0.heap.cells == d.heap.cells - {p})
  {
    match Release(d.heap, p)
    case Err(f) => Err(f)
    case Ok(heap) => Ok((d.(heap := heap), 0.0))
  }

  /** The `fract() == 0` branch of `number_to_string`: integral values are floored. */
  function Normalised(x: real): real
  {
    if x == x.Floor as real then x.Floor as real else x
  }

  /** `number_to_string`: only a `FLOAT_TAG` value may be formatted; the text is leaked in a
      new allocation. */
  function NumberToStringEffect(d: RuntimeData, num: Numerics, tag: u8, value: real): (r: Result<(RuntimeData, Handle), Fault>)
    ensures r.Err? <==> tag != FLOAT_TAG
    ensures r.Err? ==> r.error == Panic("Tried to convert non-number to string")
    ensures r.Ok? ==> r.value.0.heap.cells == d.heap.cells[r.value.1 := num.show(value)]
  {
    if tag != FLOAT_TAG then Err(Panic("Tried to convert non-number to string"))
    else
      var (heap, q) := Alloc(d.heap, num.show(Normalised(value)));
      Ok((d.(heap := heap), q))
  }

  /** `copy_string`: a fresh allocation with equal contents; the original is kept. */
  function CopyStringEffect(d: RuntimeData, p: Handle): (r: Result<(RuntimeData, Handle), Fault>)
    ensures r.Ok? <==> Live(d.heap, p)
    ensures r.Ok? ==> (r.value.0 == d.(heap := r.value.0.heap)
                       && r.value.0.heap.cells == d.heap.cells[r.value.1 := d.heap.cells[p]])
    ensures r.Ok? && Valid(d.heap) ==>
      Valid(r.value.0.heap) && !Live(d.heap, r.value.1) && Live(r.value.0.heap, p)
  {
    match Duplicate(d.heap, p)
    case Err(f) => Err(f)
    case Ok(step) => Ok((d.(heap := step.0), step.1))
  }

  /** The entry points that go through `cast_to_runtime_data` all stop with exit status -1
      when the canary is damaged, whatever their arguments. */
  lemma CanaryGuardsEntryPoints(d: RuntimeData, num: Numerics, tag: u8, value: real, p: Handle)
    requires d.canary != CANARY
    ensures PrintStringCaptureEffect(d, p) == Err(Exit(-1))
    ensures PrintFloatCaptureEffect(d, num, value) == Err(Exit(-1))
    ensures NextLineEffect(d) == Err(Exit(-1))
    ensures ColumnEffect(d, num, tag, value, p) == Err(Exit(-1))
  {
  }

  /** Copy then free of the copy restores the original heap contents. */
  lemma CopyThenFree(d: RuntimeData, p: Handle)
    requires Valid(d.heap) && Live(d.heap, p)
    ensures var c := CopyStringEffect(d, p).value;
      FreeStringEffect(c.0, c.1).Ok? && FreeStringEffect(c.0, c.1).value.0.heap.cells == d.heap.cells
  {
    var c := CopyStringEffect(d, p).value;
    assert c.0.heap.cells - {c.1} == d.heap.cells;
  }

  // ---------------------------------------------------------------- the runtime object

  /** The runtime data behind the generated code's `data` pointer, plus standard output. */
  class Runtime {
    var columns: ColumnStore.Columns
    var canary: string
    var output: string
    var heap: Heap
    var stdout: string

    ghost function Data(): RuntimeData
      reads this, columns
    {
      RuntimeData(columns.State(), canary, output, heap)
    }

    /** `RuntimeData::new`, starting from an existing heap. */
    static method New(paths: seq<string>, disk: map<string, string>, heap0: Heap) returns (r: Result<Runtime, Fault>)
      ensures r.Ok? <==> NewRuntimeData(paths, disk, heap0).Ok?
      ensures r.Ok? ==> (fresh(r.value) && fresh(r.value.columns)
                         && r.value.Data() == NewRuntimeData(paths, disk, heap0).value
                         && r.value.stdout == "")
    {
      var c := ColumnStore.Columns.New(paths, disk);
      if c.Err? {
        return Err(c.error);
      }
      var rt := new Runtime.Init(c.value, heap0);
      return Ok(rt);
    }

    /** The struct literal of `RuntimeData::new`, around an already built record store. */
    constructor Init(store: ColumnStore.Columns, heap0: Heap)
      ensures columns == store && canary == CANARY && output == "" && heap == heap0 && stdout == ""
    {
      columns := store;
      canary := CANARY;
      output := "";
      heap := heap0;
      stdout := "";
    }

    method CheckCanary() returns (r: Result<(), Fault>)
      ensures r.Ok? <==> canary == CANARY
      ensures r.Err? ==> r.error == Exit(-1)
    {
      if canary != CANARY {
        return Err(Exit(-1));
      }
      return Ok(());
    }

    method PrintString(p: Handle) returns (r: Result<(), Fault>)
      modifies this
      ensures unchanged(this`output) && unchanged(this`heap) && unchanged(this`canary) && unchanged(this`columns)
      ensures r.Ok? <==> PrintStringEffect(old(stdout), heap, p).Ok?
      ensures r.Ok? ==> stdout == PrintStringEffect(old(stdout), heap, p).value
    {
      if p !in heap.cells {
        return Err(UseAfterFree(p));
      }
      stdout := stdout + Printed(heap.cells[p]);
      return Ok(());
    }

    method PrintFloat(num: Numerics, x: real)
      modifies this
      ensures unchanged(this`output) && unchanged(this`heap) && unchanged(this`canary) && unchanged(this`columns)
      ensures stdout == PrintFloatEffect(old(stdout), num, x)
    {
      stdout := stdout + num.show(x) + "\n";
    }

    method PrintStringCapture(p: Handle) returns (r: Result<(), Fault>)
      modifies this
      ensures unchanged(this`stdout) && unchanged(this`columns)
      ensures Agrees(r, Data(), match PrintStringCaptureEffect(old(Data()), p)
                                case Ok(d) => Ok((d, ()))
                                case Err(f) => Err(f))
    {
      r := CheckCanary();
      if r.Err? {
        return;
      }
      if p !in heap.cells {
        return Err(UseAfterFree(p));
      }
      output := output + Printed(heap.cells[p]);
      r := Ok(());
    }

    method PrintFloatCapture(num: Numerics, x: real) returns (r: Result<(), Fault>)
      modifies this
      ensures unchanged(this`stdout) && unchanged(this`columns)
      ensures Agrees(r, Data(), match PrintFloatCaptureEffect(old(Data()), num, x)
                                case Ok(d) => Ok((d, ()))
                                case Err(f) => Err(f))
    {
      r := CheckCanary();
      if r.Err? {
        return;
      }
      output := output + num.show(x) + "\n";
      r := Ok(());
    }

    method NextLine() returns (r: Result<real, Fault>)
      modifies this, columns
      ensures unchanged(this`stdout) && unchanged(this`columns)
      ensures Agrees(r, Data(), NextLineEffect(old(Data())))
    {
      var checked := CheckCanary();
      if checked.Err? {
        return Err(checked.error);
      }
      var more := columns.NextLine();
      if more.Err? {
        return Err(more.error);
      }
      return Ok(if more.value then 1.0 else 0.0);
    }

    method StringToNumber(num: Numerics, p: Handle) returns (r: Result<real, Fault>)
      ensures r == StringToNumberEffect(Data(), num, p)
    {
      if p !in heap.cells {
        return Err(UseAfterFree(p));
      }
      var s := heap.cells[p];
      var parsed := num.parse(s);
      if parsed.None? {
        return Err(Panic("couldn't convert string to number " + s));
      }
      return Ok(parsed.value);
    }

    method Column(num: Numerics, tag: u8, value: real, p: Handle) returns (r: Result<Handle, Fault>)
      modifies this
      ensures unchanged(this`stdout) && unchanged(this`columns)
      ensures Agrees(r, Data(), ColumnEffect(old(Data()), num, tag, value, p))
    {
      var checked := CheckCanary();
      if checked.Err? {
        return Err(checked.error);
      }
      var idx: real;
      if tag == FLOAT_TAG {
        idx := value;
      } else {
        var parsed := StringToNumber(num, p);
        if parsed.Err? {
          return Err(parsed.error);
        }
        idx := parsed.value;
      }
      var field := columns.Get(RoundToIndex(idx));
      var q;
      heap, q := Alloc(heap, field).0, Alloc(heap, field).1;
      return Ok(q);
    }

    method FreeString(p: Handle) returns (r: Result<real, Fault>)
      modifies this
      ensures unchanged(this`stdout) && unchanged(this`columns)
      ensures Agrees(r, Data(), FreeStringEffect(old(Data()), p))
    {
      if p !in heap.cells {
        return Err(UseAfterFree(p));
      }
      heap := Heap(heap.cells - {p}, heap.next);
      return Ok(0.0);
    }

    method NumberToString(num: Numerics, tag: u8, value: real) returns (r: Result<Handle, Fault>)
      modifies this
      ensures unchanged(this`stdout) && unchanged(this`columns)
      ensures Agrees(r, Data(), NumberToStringEffect(old(Data()), num, tag, value))
    {
      if tag != FLOAT_TAG {
        return Err(Panic("Tried to convert non-number to string"));
      }
      var text := num.show(Normalised(value));
      var q;
      heap, q := Alloc(heap, text).0, Alloc(heap, text).1;
      return Ok(q);
    }

    method CopyString(p: Handle) returns (r: Result<Handle, Fault>)
      modifies this
      ensures unchanged(this`stdout) && unchanged(this`columns)
      ensures Agrees(r, Data(), CopyStringEffect(old(Data()), p))
    {
      if p !in heap.cells {
        return Err(UseAfterFree(p));
      }
      var q;
      heap, q := Alloc(heap, heap.cells[p]).0, Alloc(heap, heap.cells[p]).1;
      return Ok(q);
    }
  }
}
