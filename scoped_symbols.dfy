/*
 * The scoped symbol table: a stack of scopes, the global scope at the
 * bottom, searched from the innermost scope outward, plus one map of
 * functions. The compiler pipeline does not use it (the analyzer keeps its
 * own flat table); it is modelled as a component of its own.
 */
module ScopedSymbols {
  import opened Util
  import opened Ast
  import Symbols

  /** The `scope` tag of a symbol: 'global' or 'local'. */
  datatype ScopeKind = Global | Local

  /** A variable symbol; `offset` is always null when a symbol is created. */
  datatype Sym = Sym(name: string, typ: string, isArray: bool, arraySize: ArraySize, scope: ScopeKind,
                     offset: Option<int>)

  datatype FuncSym = FuncSym(name: string, returnType: string, params: seq<Param>, isDefined: bool)

  /** The object `getStats` returns. */
  datatype Stats = Stats(totalVariables: nat, globalVariables: nat, totalFunctions: nat, scopeDepth: nat)

  function AlreadyDefined(name: string): string
  {
    "Variable '" + name + "' already defined in current scope"
  }

  function FunctionAlreadyDefined(name: string): string
  {
    "Function '" + name + "' already defined"
  }

  /** `name` is bound in scope `j` and in no scope above it up to `i`. */
  ghost predicate Innermost(scopes: seq<map<string, Sym>>, i: nat, name: string, j: nat)
    requires i < |scopes|
  {
    j <= i && name in scopes[j] && forall k :: j < k <= i ==> name !in scopes[k]
  }

  /**
   * The search of `lookup`, from scope `i` down to the global scope: it
   * finds a binding exactly when some scope at or below `i` has the name.
   */
  function LookupFrom(scopes: seq<map<string, Sym>>, i: nat, name: string): (r: Result<Sym>)
    requires i < |scopes|
    ensures r.Ok? <==> exists j :: 0 <= j <= i && name in scopes[j]
    ensures r.Err? ==> r.msg == Symbols.UndefinedVariable(name)
    decreases i
  {
    if name in scopes[i] then Ok(scopes[i][name])
    else if i == 0 then Err(Symbols.UndefinedVariable(name))
    else LookupFrom(scopes, i - 1, name)
  }

  /** The binding `lookup` finds is the innermost one. */
  lemma {:induction false} LookupFindsInnermost(scopes: seq<map<string, Sym>>, i: nat, name: string)
    requires i < |scopes| && LookupFrom(scopes, i, name).Ok?
    ensures exists j: nat :: Innermost(scopes, i, name, j) && LookupFrom(scopes, i, name).value == scopes[j][name]
    decreases i
  {
    if name in scopes[i] {
      assert Innermost(scopes, i, name, i);
    } else {
      LookupFindsInnermost(scopes, i - 1, name);
      var j: nat :| Innermost(scopes, i - 1, name, j) && LookupFrom(scopes, i - 1, name).value == scopes[j][name];
      assert Innermost(scopes, i, name, j);
    }
  }

  /** The number of entries over all scopes. */
  function SumSizes(scopes: seq<map<string, Sym>>): nat
  {
    if scopes == [] then 0 else SumSizes(scopes[..|scopes| - 1]) + |scopes[|scopes| - 1]|
  }

  /** Pushing an empty scope adds no variable. */
  lemma PushKeepsTotal(scopes: seq<map<string, Sym>>)
    ensures SumSizes(scopes + [map[]]) == SumSizes(scopes)
  {
    assert (scopes + [map[]])[..|scopes|] == scopes;
  }

  /** Binding a new name in any one scope adds exactly one variable to the total. */
  lemma {:induction false} BindAddsOne(scopes: seq<map<string, Sym>>, k: nat, name: string, s: Sym)
    requires k < |scopes| && name !in scopes[k]
    ensures SumSizes(scopes[k := scopes[k][name := s]]) == SumSizes(scopes) + 1
    decreases |scopes|
  {
    var scopes' := scopes[k := scopes[k][name := s]];
    var n := |scopes| - 1;
    assert scopes'[..n] == if k == n then scopes[..n] else scopes[..n][k := scopes[k][name := s]];
    if k < n {
      BindAddsOne(scopes[..n], k, name, s);
    }
  }

  /**
   * A scope pushed on top is searched first: a name it binds hides every
   * outer binding, and a name it does not bind is found as before.
   */
  lemma {:induction false} PushedScopeFirst(scopes: seq<map<string, Sym>>, m: map<string, Sym>, name: string)
    requires |scopes| > 0
    ensures LookupFrom(scopes + [m], |scopes|, name) ==
            if name in m then Ok(m[name]) else LookupFrom(scopes, |scopes| - 1, name)
  {
    var s' := scopes + [m];
    if name !in m {
      LookupPrefix(s', |scopes| - 1, name);
      assert s'[..|scopes|] == scopes;
    }
  }

  /** A search from scope `i` only depends on the scopes at or below `i`. */
  lemma {:induction false} LookupPrefix(scopes: seq<map<string, Sym>>, i: nat, name: string)
    requires i < |scopes|
    ensures LookupFrom(scopes, i, name) == LookupFrom(scopes[..i + 1], i, name)
    decreases i
  {
    if name !in scopes[i] && i > 0 {
      LookupPrefix(scopes, i - 1, name);
      LookupPrefix(scopes[..i + 1], i - 1, name);
      assert scopes[..i + 1][..i] == scopes[..i];
    }
  }

  /**
   * Shadowing: a name bound in scope `k` and in no scope above it is found
   * with its scope-`k` symbol, whatever outer scopes bind.
   */
  lemma ShadowedLookup(scopes: seq<map<string, Sym>>, i: nat, name: string, k: nat)
    requires i < |scopes| && k <= i && name in scopes[k]
    requires forall j :: k < j <= i ==> name !in scopes[j]
    ensures LookupFrom(scopes, i, name) == Ok(scopes[k][name])
  {
    var r := LookupFrom(scopes, i, name);
    LookupFindsInnermost(scopes, i, name);
    var j: nat :| Innermost(scopes, i, name, j) && r.value == scopes[j][name];
    assert j == k;
  }

  /**
   * `SymbolTable` of the scoped variant. `currentScope` indexes the top of
   * the stack; the global scope is never popped.
   */
  class ScopedTable {
    var scopes: seq<map<string, Sym>>
    var currentScope: nat
    var functions: map<string, FuncSym>

    ghost predicate Valid()
      reads this
    {
      currentScope == |scopes| - 1
    }

    constructor()
      ensures Valid() && scopes == [map[]] && currentScope == 0 && functions == map[]
    {
      scopes := [map[]];
      currentScope := 0;
      functions := map[];
    }

    /** `enterScope`: push an empty scope. */
    method EnterScope()
      requires Valid()
      modifies this
      ensures Valid() && scopes == old(scopes) + [map[]] && currentScope == old(currentScope) + 1
      ensures functions == old(functions)
    {
      scopes := scopes + [map[]];
      currentScope := currentScope + 1;
    }

    /** `exitScope`: pop, unless only the global scope is left. */
    method ExitScope()
      requires Valid()
      modifies this
      ensures Valid() && functions == old(functions)
      ensures old(currentScope) > 0 ==> scopes == old(scopes)[..old(currentScope)] && currentScope == old(currentScope) - 1
      ensures old(currentScope) == 0 ==> scopes == old(scopes) && currentScope == 0
    {
      if currentScope > 0 {
        scopes := scopes[..currentScope];
        currentScope := currentScope - 1;
      }
    }

    /**
     * `define`: binds `name` in the current scope, tagged global exactly at
     * depth 0; a name already bound in the current scope is an error, one
     * bound only further out is shadowed.
     */
    method Define(name: string, typ: string, isArray: bool, arraySize: ArraySize) returns (r: Result<Sym>)
      requires Valid()
      modifies this
      ensures Valid() && functions == old(functions) && currentScope == old(currentScope)
      ensures name in old(scopes)[currentScope] ==> r == Err(AlreadyDefined(name)) && scopes == old(scopes)
      ensures name !in old(scopes)[currentScope] ==>
        r.Ok? && r.value == Sym(name, typ, isArray, arraySize, r.value.scope, None) &&
        (r.value.scope == Global <==> currentScope == 0) &&
        scopes == old(scopes)[currentScope := old(scopes)[currentScope][name := r.value]]
      ensures r.Ok? ==> LookupFrom(scopes, currentScope, name) == r
    {
      var scope := if currentScope == 0 then Global else Local;
      var symbol := Sym(name, typ, isArray, arraySize, scope, None);
      if name in scopes[currentScope] {
        return Err(AlreadyDefined(name));
      }
      scopes := scopes[currentScope := scopes[currentScope][name := symbol]];
      r := Ok(symbol);
    }

    /** `defineFunction`: a second definition of a name is an error. */
    method DefineFunction(name: string, returnType: string, params: seq<Param>) returns (r: Result<FuncSym>)
      requires Valid()
      modifies this
      ensures Valid() && scopes == old(scopes) && currentScope == old(currentScope)
      ensures name in old(functions) ==> r == Err(FunctionAlreadyDefined(name)) && functions == old(functions)
      ensures name !in old(functions) ==>
        r == Ok(FuncSym(name, returnType, params, true)) && functions == old(functions)[name := r.value]
    {
      if name in functions {
        return Err(FunctionAlreadyDefined(name));
      }
      var f := FuncSym(name, returnType, params, true);
      functions := functions[name := f];
      r := Ok(f);
    }

    /** `lookup`: the loop from the current scope down to the global one. */
    method Lookup(name: string) returns (r: Result<Sym>)
      requires Valid()
      ensures r == LookupFrom(scopes, currentScope, name)
    {
      var i: nat := currentScope;
      while true
        invariant i <= currentScope
        invariant forall k :: i < k <= currentScope ==> name !in scopes[k]
        invariant LookupFrom(scopes, currentScope, name) == LookupFrom(scopes, i, name)
        decreases i
      {
        if name in scopes[i] {
          return Ok(scopes[i][name]);
        }
        if i == 0 {
          return Err(Symbols.UndefinedVariable(name));
        }
        i := i - 1;
      }
    }

    /** `exists`: true exactly when `lookup` would find the name. */
    method Exists(name: string) returns (b: bool)
      requires Valid()
      ensures b <==> LookupFrom(scopes, currentScope, name).Ok?
    {
      var i: nat := currentScope;
      while true
        invariant i <= currentScope
        invariant LookupFrom(scopes, currentScope, name).Ok? <==> LookupFrom(scopes, i, name).Ok?
        decreases i
      {
        if name in scopes[i] {
          return true;
        }
        if i == 0 {
          return false;
        }
        i := i - 1;
      }
    }

    /** `lookupFunction`: throws for a name that was never defined. */
    function LookupFunction(name: string): (r: Result<FuncSym>)
      reads this
      ensures r.Ok? <==> name in functions
      ensures r.Ok? ==> r.value == functions[name]
      ensures r.Err? ==> r.msg == Symbols.UndefinedFunction(name)
    {
      if name in functions then Ok(functions[name]) else Err(Symbols.UndefinedFunction(name))
    }

    /** `getStats`: the loop summing the scope sizes. */
    method GetStats() returns (stats: Stats)
      requires Valid()
      ensures stats == Stats(SumSizes(scopes), |scopes[0]|, |functions|, currentScope)
    {
      var total := 0;
      var i := 0;
      while i < |scopes|
        invariant i <= |scopes|
        invariant total == SumSizes(scopes[..i])
      {
        assert scopes[..i + 1][..i] == scopes[..i];
        total := total + |scopes[i]|;
        i := i + 1;
      }
      assert scopes[..i] == scopes;
      stats := Stats(total, |scopes[0]|, |functions|, currentScope);
    }
  }
}
