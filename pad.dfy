// `pad`: grows a file path to exactly 1000 bytes with NUL characters, so the runtime can
// read it from a fixed-size buffer.

module PathPadding {
  import opened Wrappers

  /** The fixed width of a padded path, in bytes. */
  const Width := 1000

  /** How many bytes UTF-8 uses for `c`. */
  function Utf8Width(c: char): (n: nat)
    ensures 1 <= n <= 4
    ensures c as int < 0x80 <==> n == 1
  {
    if c as int < 0x80 then 1
    else if c as int < 0x800 then 2
    else if c as int < 0x1_0000 then 3
    else 4
  }

  /** `String::len`, and `as_bytes().len()`: the length of `s` in bytes. */
  function ByteLen(s: string): (n: nat)
    ensures |s| <= n <= 4 * |s|
  {
    if s == [] then 0 else ByteLen(s[..|s| - 1]) + Utf8Width(s[|s| - 1])
  }

  /** `n` NUL characters. */
  function Nuls(n: nat): (s: string)
    ensures |s| == n && forall i :: 0 <= i < n ==> s[i] == '\0'
  {
    if n == 0 then [] else Nuls(n - 1) + ['\0']
  }

  lemma {:induction false} NulsByteLen(n: nat)
    ensures ByteLen(Nuls(n)) == n
  {
    if n > 0 {
      NulsByteLen(n - 1);
      assert Nuls(n)[..n - 1] == Nuls(n - 1);
    }
  }

  lemma {:induction false} ByteLenAppend(s: string, t: string)
    ensures ByteLen(s + t) == ByteLen(s) + ByteLen(t)
    decreases |t|
  {
    if t != [] {
      var u := t[..|t| - 1];
      assert (s + t)[..|s + t| - 1] == s + u;
      assert t[..|t| - 1] == u;
      ByteLenAppend(s, u);
    } else {
      assert s + t == s;
    }
  }

  /** `pad`: a panic when the path is over 1000 bytes long, otherwise the path followed by as
      many NULs as bring it to 1000 bytes. */
  function Padded(path: string): Result<string, Fault>
  {
    if ByteLen(path) > Width then Err(Panic("file path is too long " + path))
    else Ok(path + Nuls(Width - ByteLen(path)))
  }

  // ---------------------------------------------------------------- properties

  /** `pad` fails exactly on a path longer than 1000 bytes; otherwise the result is 1000 bytes
      long, begins with the path and continues with NULs only. */
  lemma PaddedShape(path: string)
    ensures Padded(path).Err? <==> ByteLen(path) > Width
    ensures Padded(path).Ok? ==>
      var r := Padded(path).value;
      ByteLen(r) == Width && |path| <= |r| && r[..|path|] == path
      && forall i :: |path| <= i < |r| ==> r[i] == '\0'
  {
    if ByteLen(path) <= Width {
      var n := Width - ByteLen(path);
      ByteLenAppend(path, Nuls(n));
      NulsByteLen(n);
      var r := path + Nuls(n);
      assert r[..|path|] == path;
      forall i | |path| <= i < |r|
        ensures r[i] == '\0'
      {
        assert r[i] == Nuls(n)[i - |path|];
      }
    }
  }

  /** Padding a padded path changes nothing. */
  lemma PadIdempotent(path: string)
    requires Padded(path).Ok?
    ensures Padded(Padded(path).value) == Padded(path)
  {
    PaddedShape(path);
    var r := Padded(path).value;
    assert Nuls(0) == [];
    assert r + [] == r;
  }

  // ---------------------------------------------------------------- the loop of `pad`

  /** `pad`, with its `while` loop pushing `'\0'`; the path it changes in place is passed in
      and the new contents returned. */
  method Pad(path: string) returns (r: Result<string, Fault>)
    ensures r == Padded(path)
  {
    if ByteLen(path) > Width {
      return Err(Panic("file path is too long " + path));
    }
    var s := path;
    ghost var added: nat := 0;
    while ByteLen(s) < Width
      invariant s == path + Nuls(added) && ByteLen(s) == ByteLen(path) + added <= Width
      decreases Width - ByteLen(s)
    {
      ByteLenAppend(s, ['\0']);
      assert ByteLen(['\0']) == 1 by {
        assert ['\0'][..0] == [];
      }
      s := s + ['\0'];
      added := added + 1;
    }
    return Ok(s);
  }
}
