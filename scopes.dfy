// The code generator's scope stack: a stack of name-to-value maps searched from the
// innermost scope outwards.

module ScopeStack {
  import opened Wrappers

  type Scope<V> = map<string, V>

  /** The binding of `name` in the innermost scope that has one. */
  function Resolve<V>(stack: seq<Scope<V>>, name: string): Option<V>
  {
    if stack == [] then None
    else if name in stack[|stack| - 1] then Some(stack[|stack| - 1][name])
    else Resolve(stack[..|stack| - 1], name)
  }

  /** `insert`: the innermost scope binds `name` to `value`; an empty stack makes the
      `unwrap` panic. */
  function Inserted<V>(stack: seq<Scope<V>>, name: string, value: V): (r: Result<seq<Scope<V>>, Fault>)
    ensures r.Ok? <==> stack != []
    ensures r.Ok? ==> |r.value| == |stack| && r.value[..|stack| - 1] == stack[..|stack| - 1]
  {
    if stack == [] then Err(Panic("called `Option::unwrap()` on a `None` value"))
    else Ok(stack[..|stack| - 1] + [stack[|stack| - 1][name := value]])
  }

  /** `Resolve` finds the innermost scope binding the name, and nothing when none does. */
  lemma {:induction false} ResolveInnermost<V>(stack: seq<Scope<V>>, name: string)
    ensures Resolve(stack, name).None? <==> forall i :: 0 <= i < |stack| ==> name !in stack[i]
    ensures Resolve(stack, name).Some? ==>
      exists i :: 0 <= i < |stack| && name in stack[i] && stack[i][name] == Resolve(stack, name).value
                  && forall j :: i < j < |stack| ==> name !in stack[j]
  {
    if stack != [] {
      var inner := stack[..|stack| - 1];
      ResolveInnermost(inner, name);
      if name !in stack[|stack| - 1] && Resolve(stack, name).Some? {
        var i :| 0 <= i < |inner| && name in inner[i] && inner[i][name] == Resolve(inner, name).value
                 && forall j :: i < j < |inner| ==> name !in inner[j];
        assert forall j :: i < j < |stack| ==> name !in stack[j];
      }
    }
  }

  /** After `insert(n, v)` the name resolves to `v`, shadowing outer bindings, and every
      other name resolves as before. */
  lemma InsertShadows<V>(stack: seq<Scope<V>>, name: string, value: V, other: string)
    requires stack != []
    ensures Resolve(Inserted(stack, name, value).value, name) == Some(value)
    ensures other != name ==> Resolve(Inserted(stack, name, value).value, other) == Resolve(stack, other)
  {
    var s2 := Inserted(stack, name, value).value;
    assert s2[..|s2| - 1] == stack[..|stack| - 1];
  }

  /** A new scope hides nothing: every name resolves as before. */
  lemma BeginKeepsBindings<V>(stack: seq<Scope<V>>, name: string)
    ensures Resolve(stack + [map[]], name) == Resolve(stack, name)
  {
    assert (stack + [map[]])[..|stack|] == stack;
  }

  /** The innermost scope after inserting `bindings` in order into `scope`. */
  function Bound<V>(scope: Scope<V>, bindings: seq<(string, V)>): Scope<V>
    decreases |bindings|
  {
    if bindings == [] then scope
    else Bound(scope[bindings[0].0 := bindings[0].1], bindings[1..])
  }

  /** The stack after inserting `bindings` in order. */
  function InsertedAll<V>(stack: seq<Scope<V>>, bindings: seq<(string, V)>): Result<seq<Scope<V>>, Fault>
    decreases |bindings|
  {
    if bindings == [] then Ok(stack)
    else
      var s1 :- Inserted(stack, bindings[0].0, bindings[0].1);
      InsertedAll(s1, bindings[1..])
  }

  /** `begin_scope`, any inserts, then `end_scope`: the stack is as it was and the popped
      scope holds exactly the bindings inserted in between. */
  lemma {:induction false} BeginInsertEnd<V>(stack: seq<Scope<V>>, scope: Scope<V>, bindings: seq<(string, V)>)
    ensures InsertedAll(stack + [scope], bindings) == Ok(stack + [Bound(scope, bindings)])
    decreases |bindings|
  {
    if bindings != [] {
      var (n, v) := bindings[0];
      assert (stack + [scope])[..|stack|] == stack;
      assert Inserted(stack + [scope], n, v) == Ok(stack + [scope[n := v]]);
      BeginInsertEnd(stack, scope[n := v], bindings[1..]);
    }
  }

  /** `Scopes`: the stack itself. */
  class Scopes<V(==)> {
    var scopes: seq<Scope<V>>

    /** `new`: one empty scope. */
    constructor ()
      ensures scopes == [map[]]
    {
      scopes := [map[]];
    }

    method Insert(name: string, value: V) returns (r: Result<(), Fault>)
      modifies this
      ensures match Inserted(old(scopes), name, value)
              case Ok(s) => r == Ok(()) && scopes == s
              case Err(f) => r == Err(f) && scopes == old(scopes)
    {
      if scopes == [] {
        return Err(Panic("called `Option::unwrap()` on a `None` value"));
      }
      var top := scopes[|scopes| - 1];
      scopes := scopes[..|scopes| - 1] + [top[name := value]];
      return Ok(());
    }

    /** `get`: the scopes searched from the innermost outwards. */
    method Get(name: string) returns (r: Option<V>)
      ensures r == Resolve(scopes, name)
    {
      var i := |scopes|;
      assert scopes[..i] == scopes;
      while i > 0
        invariant 0 <= i <= |scopes|
        invariant Resolve(scopes, name) == Resolve(scopes[..i], name)
      {
        assert scopes[..i][..i - 1] == scopes[..i - 1];
        if name in scopes[i - 1] {
          return Some(scopes[i - 1][name]);
        }
        i := i - 1;
      }
      return None;
    }

    /** `lookup`: `get`, with the value cloned. */
    method Lookup(name: string) returns (r: Option<V>)
      ensures r == Resolve(scopes, name)
    {
      r := Get(name);
    }

    method BeginScope()
      modifies this
      ensures scopes == old(scopes) + [map[]]
    {
      scopes := scopes + [map[]];
    }

    /** `end_scope`: the innermost scope, popped; an empty stack makes the `unwrap` panic. */
    method EndScope() returns (r: Result<Scope<V>, Fault>)
      modifies this
      ensures old(scopes) == [] ==> r.Err? && scopes == old(scopes)
      ensures old(scopes) != [] ==> r == Ok(old(scopes)[|old(scopes)| - 1]) && scopes == old(scopes)[..|old(scopes)| - 1]
    {
      if scopes == [] {
        return Err(Panic("called `Option::unwrap()` on a `None` value"));
      }
      r := Ok(scopes[|scopes| - 1]);
      scopes := scopes[..|scopes| - 1];
    }
  }
}
