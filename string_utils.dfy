// The byte-prefix test of the columns module, and the `split` that the record
// store applies to file text (Rust's `str::split` with a string pattern).

module StringUtils {
  import opened Wrappers

  /** `needle` occurs in `haystack` at position `baseIdx`, without reading out of bounds. */
  predicate PrefixAt<T(==)>(haystack: seq<T>, needle: seq<T>, baseIdx: nat)
  {
    baseIdx <= |haystack| && |haystack| - baseIdx >= |needle| &&
    haystack[baseIdx..baseIdx + |needle|] == needle
  }

  /** `starts_with`: the guard runs before any indexing, then one index loop with early exit. */
  method StartsWith<T(==)>(haystack: seq<T>, needle: seq<T>, baseIdx: nat) returns (r: bool)
    ensures (baseIdx > |haystack| || |haystack| - baseIdx < |needle|) ==> !r
    ensures r <==> baseIdx <= |haystack| && |haystack| - baseIdx >= |needle| &&
                   forall i :: 0 <= i < |needle| ==> haystack[baseIdx + i] == needle[i]
    ensures r == PrefixAt(haystack, needle, baseIdx)
  {
    if |haystack| < baseIdx || |haystack| - baseIdx < |needle| {
      return false;
    }
    for idx := 0 to |needle|
      invariant forall i :: 0 <= i < idx ==> haystack[baseIdx + i] == needle[i]
    {
      if haystack[baseIdx + idx] != needle[idx] {
        return false;
      }
    }
    return true;
  }

  /** An empty needle matches exactly at the positions inside (or just past) the haystack. */
  lemma EmptyNeedle<T>(haystack: seq<T>, baseIdx: nat)
    ensures PrefixAt(haystack, [], baseIdx) <==> baseIdx <= |haystack|
  {
  }

  /** The unit-test vectors of `starts_with`, over bytes. */
  lemma StartsWithVectors()
    ensures PrefixAt([0, 1, 2, 3, 4, 5], [0], 0)
    ensures !PrefixAt([0, 1, 2, 3, 4, 5], [0, 1, 2, 3, 4, 5, 6], 0)
    ensures !PrefixAt([0, 1, 2, 3, 4, 5], [0, 1, 3, 3, 4, 5], 0)
    ensures PrefixAt([0, 1, 2, 3, 4, 5], [0, 1, 2, 3, 4, 5], 0)
    ensures PrefixAt([0, 1, 2, 3, 4, 5], [1], 1)
    ensures PrefixAt([0, 1, 2, 3, 4, 5], [5], 5)
    ensures PrefixAt([0, 1, 2, 3, 4, 5], [2, 3, 4, 5], 2)
    ensures !PrefixAt([0, 1, 2, 3, 4, 5], [2, 3, 4, 5, 6], 2)
    ensures !PrefixAt([], [0], 2)
    ensures !PrefixAt([], [0], 0)
    ensures !PrefixAt<int>([], [], 1)
    ensures PrefixAt<int>([], [], 0)
  {
    assert [0, 1, 2, 3, 4, 5][0..6] == [0, 1, 2, 3, 4, 5];
    assert [0, 1, 2, 3, 4, 5][2..6] == [2, 3, 4, 5];
    assert [0, 1, 2, 3, 4, 5][0..6][2] == 2;
  }

  /** The leftmost occurrence of a non-empty separator at or after `from`. */
  function FirstMatch<T(==)>(s: seq<T>, sep: seq<T>, from: nat): (r: Option<nat>)
    requires |sep| > 0
    ensures r.Some? ==> from <= r.value && PrefixAt(s, sep, r.value)
    ensures r.Some? ==> forall k :: from <= k < r.value ==> !PrefixAt(s, sep, k)
    ensures r.None? ==> forall k :: from <= k ==> !PrefixAt(s, sep, k)
    decreases |s| - from
  {
    if from + |sep| > |s| then None
    else if PrefixAt(s, sep, from) then Some(from)
    else FirstMatch(s, sep, from + 1)
  }

  /** Each element as a one-element sequence. */
  function Singletons<T>(s: seq<T>): seq<seq<T>>
  {
    seq(|s|, i requires 0 <= i < |s| => [s[i]])
  }

  /**
   * Rust's `split` with a string pattern: the pieces between successive leftmost,
   * non-overlapping occurrences of `sep`; empty pieces are kept. An empty pattern
   * matches at every position, giving "", each character, and "".
   */
  function Split<T(==)>(s: seq<T>, sep: seq<T>): (pieces: seq<seq<T>>)
    ensures |pieces| >= 1
    decreases |s|
  {
    if |sep| == 0 then [[]] + Singletons(s) + [[]]
    else match FirstMatch(s, sep, 0)
      case None => [s]
      case Some(j) => [s[..j]] + Split(s[j + |sep|..], sep)
  }

  /** The inverse of `Split`: the pieces with `sep` between neighbours. */
  function Join<T>(pieces: seq<seq<T>>, sep: seq<T>): seq<T>
  {
    if |pieces| == 0 then []
    else if |pieces| == 1 then pieces[0]
    else pieces[0] + sep + Join(pieces[1..], sep)
  }

  lemma {:induction false} JoinSingletons<T>(s: seq<T>)
    ensures Join(Singletons(s) + [[]], []) == s
    decreases |s|
  {
    if |s| > 0 {
      assert Singletons(s) + [[]] == [[s[0]]] + (Singletons(s[1..]) + [[]]);
      JoinSingletons(s[1..]);
      assert [s[0]] + s[1..] == s;
    }
  }

  /** Splitting loses nothing: joining the pieces back gives the original text. */
  lemma {:induction false} SplitJoin<T>(s: seq<T>, sep: seq<T>)
    ensures Join(Split(s, sep), sep) == s
    decreases |s|
  {
    if |sep| == 0 {
      JoinSingletons(s);
      assert Split(s, sep) == [[]] + (Singletons(s) + [[]]);
    } else {
      var m := FirstMatch(s, sep, 0);
      if m.Some? {
        var j := m.value;
        var rest := s[j + |sep|..];
        SplitJoin(rest, sep);
        SplitJoinStep(s, sep, j, Split(rest, sep));
      }
    }
  }

  lemma SplitJoinStep<T>(s: seq<T>, sep: seq<T>, j: nat, tail: seq<seq<T>>)
    requires |sep| > 0 && FirstMatch(s, sep, 0) == Some(j)
    requires tail == Split(s[j + |sep|..], sep)
    requires Join(tail, sep) == s[j + |sep|..]
    ensures Join(Split(s, sep), sep) == s
  {
    var pieces := [s[..j]] + tail;
    assert Split(s, sep) == pieces;
    assert pieces[1..] == tail;
    assert Join(pieces, sep) == s[..j] + sep + Join(tail, sep);
    assert s == s[..j] + s[j..j + |sep|] + s[j + |sep|..];
  }

  /** A piece produced by a non-empty separator never contains that separator. */
  lemma {:induction false} SplitPiecesAvoidSep<T>(s: seq<T>, sep: seq<T>)
    requires |sep| > 0
    ensures forall i, k :: 0 <= i < |Split(s, sep)| ==> !PrefixAt(Split(s, sep)[i], sep, k)
    decreases |s|
  {
    match FirstMatch(s, sep, 0)
    case None =>
    case Some(j) =>
      var rest := s[j + |sep|..];
      SplitPiecesAvoidSep(rest, sep);
      var pieces := Split(s, sep);
      assert pieces == [s[..j]] + Split(rest, sep);
      forall k: nat | PrefixAt(s[..j], sep, k)
        ensures false
      {
        assert s[..j][k..k + |sep|] == s[k..k + |sep|];
        assert PrefixAt(s, sep, k);
      }
      forall i, k | 0 <= i < |pieces|
        ensures !PrefixAt(pieces[i], sep, k)
      {
        if i > 0 {
          assert pieces[i] == Split(rest, sep)[i - 1];
        }
      }
  }
}
