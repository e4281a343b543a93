// Values shared by the code generator and the runtime: the one-byte type tags,
// the f64 operations the model does not interpret, and the heap of boxed strings
// that the generated code passes around as raw pointers.

module Numbers {
  import opened Wrappers

  newtype u8 = x: int | 0 <= x < 256

  /** The runtime type tags carried next to every value (`FLOAT_TAG`, `STRING_TAG`). */
  const FLOAT_TAG: u8 := 0
  const STRING_TAG: u8 := 1

  /**
   * The f64 operations the model leaves uninterpreted: `str::parse::<f64>`, the
   * `Display` formatting used by `print`, and the quotient of a division by zero
   * (IEEE infinities and NaN are not reals).
   */
  datatype Numerics = Numerics(
    parse: string -> Option<real>,
    show: real -> string,
    quotientByZero: real -> real)

  /** The number a string of decimal digits spells, most significant digit first; a
      character that is not a digit counts as 0. */
  function DigitsValue(s: string): nat
  {
    if s == [] then 0
    else
      var c := s[|s| - 1];
      DigitsValue(s[..|s| - 1]) * 10 + (if '0' <= c <= '9' then c as int - '0' as int else 0)
  }

  /** `Display` of an unsigned integer: its decimal digits, most significant first. */
  function Decimal(n: nat): (s: string)
    ensures 1 <= |s| && forall i :: 0 <= i < |s| ==> '0' <= s[i] <= '9'
    ensures n < 10 <==> |s| == 1
    ensures DigitsValue(s) == n
    ensures |s| == 1 || s[0] != '0'
  {
    if n < 10 then [('0' as int + n) as char]
    else
      var init := Decimal(n / 10);
      var s := init + [('0' as int + n % 10) as char];
      assert s[..|s| - 1] == init;
      s
  }

  /** `x.round() as usize`: round half away from zero; negative values saturate to 0. */
  function RoundToIndex(x: real): (n: nat)
    ensures x >= 0.0 ==> n as real <= x + 0.5 < n as real + 1.0
    ensures x < 0.0 ==> n == 0
  {
    if x < 0.0 then 0 else (x + 0.5).Floor
  }
}

module StringHeap {
  import opened Wrappers

  /** The address of a boxed `String`, seen abstractly. */
  type Handle = nat

  /** The leaked `Box<i32>` used as the pointer of every non-string value; never a string. */
  const ZeroPtr: Handle := 0

  /** Live allocations and the next address to hand out. */
  datatype Heap = Heap(cells: map<Handle, string>, next: Handle)

  /** Every live handle was handed out before `next`, and the zero pointer is never a string. */
  predicate Valid(h: Heap)
  {
    0 < h.next && forall p :: p in h.cells ==> 0 < p < h.next
  }

  function EmptyHeap(): (h: Heap)
    ensures Valid(h) && h.cells == map[]
  {
    Heap(map[], 1)
  }

  predicate Live(h: Heap, p: Handle)
  {
    p in h.cells
  }

  /** `Box::into_raw(Box::new(s))`: a new allocation holding `s`. */
  function Alloc(h: Heap, s: string): (r: (Heap, Handle))
    ensures r.0.cells == h.cells[r.1 := s]
    ensures Valid(h) ==> Valid(r.0) && r.1 != ZeroPtr && !Live(h, r.1) && h.next <= r.1 < r.0.next
  {
    (Heap(h.cells[h.next := s], h.next + 1), h.next)
  }

  /** Reading through a handle; a handle that is not live is undefined behaviour in the source. */
  function Load(h: Heap, p: Handle): (r: Result<string, Fault>)
    ensures r.Ok? <==> Live(h, p)
    ensures r.Ok? ==> r.value == h.cells[p]
  {
    if p in h.cells then Ok(h.cells[p]) else Err(UseAfterFree(p))
  }

  /** Dropping the box behind a handle. */
  function Release(h: Heap, p: Handle): (r: Result<Heap, Fault>)
    ensures r.Ok? <==> Live(h, p)
    ensures r.Ok? ==> r.value.cells == h.cells - {p} && r.value.next == h.next
    ensures r.Ok? && Valid(h) ==> Valid(r.value)
  {
    if p in h.cells then Ok(Heap(h.cells - {p}, h.next)) else Err(UseAfterFree(p))
  }

  /** `Box::into_raw(original.clone())`: a second allocation with equal contents. */
  function Duplicate(h: Heap, p: Handle): (r: Result<(Heap, Handle), Fault>)
    ensures r.Ok? <==> Live(h, p)
    ensures r.Ok? ==> r.value.0.cells == h.cells[r.value.1 := h.cells[p]]
    ensures r.Ok? && Valid(h) ==> Valid(r.value.0) && r.value.1 != p && !Live(h, r.value.1)
  {
    if p in h.cells then Ok(Alloc(h, h.cells[p])) else Err(UseAfterFree(p))
  }

  /** Releasing what was just allocated gives back the same live set. */
  lemma AllocThenRelease(h: Heap, s: string)
    requires Valid(h)
    ensures Release(Alloc(h, s).0, Alloc(h, s).1).Ok?
    ensures Release(Alloc(h, s).0, Alloc(h, s).1).value.cells == h.cells
  {
    var (h1, p) := Alloc(h, s);
    assert h1.cells - {p} == h.cells;
  }
}
