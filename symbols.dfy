/*
 * The flat symbol table of the semantic analyzer: one variable map and one
 * function map, both first-definition-wins.  A JavaScript `Map` remembers
 * insertion order, and the code generator walks the variables in that
 * order, so the variable map is paired with the list of its keys in the
 * order they were first defined.
 */
module Symbols {
  import opened Util
  import opened Ast

  datatype VariableSymbol = VariableSymbol(name: string, typ: string, isArray: bool, arraySize: ArraySize)

  datatype FunctionSymbol = FunctionSymbol(name: string, returnType: string, params: seq<Param>)

  /** The `{totalSymbols, totalFunctions}` object of `getStats`. */
  datatype Stats = Stats(totalSymbols: nat, totalFunctions: nat)

  function UndefinedVariable(name: string): string
  {
    "Undefined variable '" + name + "'"
  }

  function UndefinedFunction(name: string): string
  {
    "Undefined function '" + name + "'"
  }

  predicate Distinct<T(==)>(s: seq<T>)
  {
    forall i, j :: 0 <= i < j < |s| ==> s[i] != s[j]
  }

  /** The value of the two maps; `order` lists the variable names in insertion order. */
  datatype Table = Table(variables: map<string, VariableSymbol>, order: seq<string>,
                         functions: map<string, FunctionSymbol>)
  {
    /** `order` is exactly the key set of `variables`, without repetition. */
    ghost predicate Valid()
    {
      Distinct(order) && (forall n :: n in variables <==> n in order)
    }

    /** `defineVariable`: a name already present keeps its first symbol. */
    function DefineVariable(name: string, typ: string, isArray: bool, arraySize: ArraySize): (t: Table)
      ensures name in t.variables
      ensures t.functions == functions
    {
      if name in variables then this
      else Table(variables[name := VariableSymbol(name, typ, isArray, arraySize)], order + [name], functions)
    }

    /** `lookup`: throws for a name that was never defined. */
    function Lookup(name: string): (r: Result<VariableSymbol>)
      ensures r.Ok? <==> name in variables
      ensures r.Err? ==> r.msg == UndefinedVariable(name)
    {
      if name in variables then Ok(variables[name]) else Err(UndefinedVariable(name))
    }

    /** `getGlobalSymbols`: the symbols in insertion order. */
    function GlobalSymbols(): (syms: seq<VariableSymbol>)
      requires Valid()
      ensures |syms| == |order|
      ensures forall i :: 0 <= i < |order| ==> syms[i] == variables[order[i]]
    {
      seq(|order|, i requires 0 <= i < |order| => variables[order[i]])
    }

    /** `defineFunction`: a name already present keeps its first signature. */
    function DefineFunction(name: string, returnType: string, params: seq<Param>): (t: Table)
      ensures name in t.functions
      ensures t.variables == variables && t.order == order
    {
      if name in functions then this
      else this.(functions := functions[name := FunctionSymbol(name, returnType, params)])
    }

    /** `lookupFunction`: throws for a name that was never registered. */
    function LookupFunction(name: string): (r: Result<FunctionSymbol>)
      ensures r.Ok? <==> name in functions
      ensures r.Err? ==> r.msg == UndefinedFunction(name)
    {
      if name in functions then Ok(functions[name]) else Err(UndefinedFunction(name))
    }

    function GetStats(): Stats
    {
      Stats(|variables|, |functions|)
    }
  }

  /** A new table: both maps empty. */
  function EmptyTable(): (t: Table)
    ensures t.Valid() && |t.order| == 0
  {
    Table(map[], [], map[])
  }

  /** Defining keeps the table well formed. */
  lemma DefineVariableValid(t: Table, name: string, typ: string, isArray: bool, arraySize: ArraySize)
    requires t.Valid()
    ensures t.DefineVariable(name, typ, isArray, arraySize).Valid()
  {
  }

  /**
   * First definition wins: after `defineVariable`, looking up the defined
   * name gives its first symbol, and every other name is looked up as before.
   */
  lemma LookupAfterDefine(t: Table, name: string, typ: string, isArray: bool, arraySize: ArraySize, other: string)
    ensures t.DefineVariable(name, typ, isArray, arraySize).Lookup(name) ==
            (if name in t.variables then t.Lookup(name) else Ok(VariableSymbol(name, typ, isArray, arraySize)))
    ensures other != name ==> t.DefineVariable(name, typ, isArray, arraySize).Lookup(other) == t.Lookup(other)
  {
  }

  /** The same for functions: the first signature stays; other names are unaffected. */
  lemma LookupFunctionAfterDefine(t: Table, name: string, returnType: string, params: seq<Param>, other: string)
    ensures t.DefineFunction(name, returnType, params).LookupFunction(name) ==
            (if name in t.functions then t.LookupFunction(name) else Ok(FunctionSymbol(name, returnType, params)))
    ensures other != name ==> t.DefineFunction(name, returnType, params).LookupFunction(other) == t.LookupFunction(other)
  {
  }

  /** The names of a sequence, each counted once. */
  function NameSet(ns: seq<string>): set<string>
  {
    set n | n in ns
  }

  lemma {:induction false} DistinctCard(ns: seq<string>)
    requires Distinct(ns)
    ensures |NameSet(ns)| == |ns|
  {
    if ns != [] {
      var last := ns[|ns| - 1];
      var init := ns[..|ns| - 1];
      assert NameSet(ns) == NameSet(init) + {last};
      assert last !in NameSet(init);
      DistinctCard(init);
    }
  }

  /** `getStats().totalSymbols` is the number of distinct variable names, i.e. of entries in insertion order. */
  lemma TotalSymbolsCountsNames(t: Table)
    requires t.Valid()
    ensures t.GetStats().totalSymbols == |NameSet(t.order)| == |t.order|
  {
    assert t.variables.Keys == NameSet(t.order);
    DistinctCard(t.order);
  }

  /** Defining every name of `ns` in turn, as the analyzer does. */
  function DefineAll(t: Table, ns: seq<string>, typ: string): Table
    decreases |ns|
  {
    if ns == [] then t else DefineAll(t.DefineVariable(ns[0], typ, false, NoSize), ns[1..], typ)
  }

  /** Defining a list of names adds exactly those names and keeps the table well formed. */
  lemma {:induction false} DefineAllKeys(t: Table, ns: seq<string>, typ: string)
    requires t.Valid()
    ensures DefineAll(t, ns, typ).Valid()
    ensures DefineAll(t, ns, typ).variables.Keys == t.variables.Keys + NameSet(ns)
    decreases |ns|
  {
    if ns == [] {
      assert NameSet(ns) == {};
    } else {
      var t' := t.DefineVariable(ns[0], typ, false, NoSize);
      DefineVariableValid(t, ns[0], typ, false, NoSize);
      DefineAllKeys(t', ns[1..], typ);
      assert t'.variables.Keys == t.variables.Keys + {ns[0]};
      assert NameSet(ns) == {ns[0]} + NameSet(ns[1..]);
    }
  }

  /**
   * However often a name repeats, defining a list of names in a new table
   * gives `totalSymbols` equal to the number of distinct names.
   */
  lemma DefineAllCounts(ns: seq<string>, typ: string)
    ensures DefineAll(EmptyTable(), ns, typ).GetStats().totalSymbols == |NameSet(ns)|
  {
    var t := DefineAll(EmptyTable(), ns, typ);
    DefineAllKeys(EmptyTable(), ns, typ);
    TotalSymbolsCountsNames(t);
    assert t.variables.Keys == NameSet(ns) == NameSet(t.order);
  }

  /** The analyzer's table object; `order` is the insertion order of the `variables` Map. */
  class SymbolTable {
    var variables: map<string, VariableSymbol>
    var order: seq<string>
    var functions: map<string, FunctionSymbol>

    function Value(): Table
      reads this
    {
      Table(variables, order, functions)
    }

    ghost predicate Valid()
      reads this
    {
      Value().Valid()
    }

    constructor()
      ensures Valid() && Value() == EmptyTable()
    {
      variables := map[];
      order := [];
      functions := map[];
    }

    function Lookup(name: string): Result<VariableSymbol>
      reads this
    {
      Value().Lookup(name)
    }

    function LookupFunction(name: string): Result<FunctionSymbol>
      reads this
    {
      Value().LookupFunction(name)
    }

    function GetStats(): Stats
      reads this
    {
      Value().GetStats()
    }

    method DefineVariable(name: string, typ: string, isArray: bool, arraySize: ArraySize) returns (sym: VariableSymbol)
      requires Valid()
      modifies this
      ensures Valid()
      ensures Value() == old(Value()).DefineVariable(name, typ, isArray, arraySize)
      ensures Value().Lookup(name) == Ok(sym)
    {
      if name !in variables {
        variables := variables[name := VariableSymbol(name, typ, isArray, arraySize)];
        order := order + [name];
      }
      sym := variables[name];
    }

    method DefineFunction(name: string, returnType: string, params: seq<Param>) returns (sym: FunctionSymbol)
      requires Valid()
      modifies this
      ensures Valid()
      ensures Value() == old(Value()).DefineFunction(name, returnType, params)
      ensures Value().LookupFunction(name) == Ok(sym)
    {
      if name !in functions {
        functions := functions[name := FunctionSymbol(name, returnType, params)];
      }
      sym := functions[name];
    }
  }
}
