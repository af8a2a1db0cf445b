/** The generator's stack of scopes. */
module NestedScopes {
  import opened Ast
  import opened IR
  import opened Typing

  class NestedScopes {
    var scopes: Scopes<nat>

    constructor ()
      ensures scopes == []
    {
      scopes := [];
    }

    /** Looks a name up from the innermost scope outwards. */
    method Lookup(name: string) returns (r: Option<Binding<nat>>)
      ensures Level(scopes, name).None? ==> r == None
      ensures Level(scopes, name).Some? ==> r == Some(scopes[Level(scopes, name).value][name])
    {
      var c := |scopes|;
      while c > 0
        invariant 0 <= c <= |scopes|
        invariant Level(scopes, name) == Level(scopes[..c], name)
      {
        c := c - 1;
        if name in scopes[c] {
          return Some(scopes[c][name]);
        }
        assert scopes[..c + 1][..c] == scopes[..c];
      }
      return None;
    }

    /** Defines a name in the innermost scope, unless it is there already. */
    method Define(name: string, def: Binding<nat>) returns (fresh_: bool)
      requires scopes != []
      modifies this
      ensures fresh_ <==> name !in old(scopes)[|old(scopes)| - 1]
      ensures scopes == if fresh_ then Bind(old(scopes), name, def) else old(scopes)
    {
      var top := scopes[|scopes| - 1];
      fresh_ := name !in top;
      if fresh_ {
        scopes := scopes[..|scopes| - 1] + [top[name := def]];
      }
    }

    method EnterScope()
      modifies this
      ensures scopes == old(scopes) + [map[]]
    {
      scopes := scopes + [map[]];
    }

    method LeaveScope()
      requires scopes != []
      modifies this
      ensures scopes == old(scopes)[..|old(scopes)| - 1]
    {
      scopes := scopes[..|scopes| - 1];
    }
  }
}
