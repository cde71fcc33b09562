/** What a valid module is, in its own terms: the index spaces as imports followed by
    declarations, and the conditions of section 3.4 of the WebAssembly Core Specification
    on them, as far as SSVM has them: the number of results of a type is not limited,
    export names are not empty, and constant expressions are not closed. The verdict of
    the validator is exactly this. */
module ModuleRules {
  import opened Wasm
  import opened Typing
  import Declarative
  import Principal
  import V = Validator

  // ----- index spaces -----

  function ImportedFuncs(imports: seq<V.Import>): seq<nat> {
    if imports == [] then []
    else (if imports[0].ImportFunction? then [imports[0].typeIdx as nat] else []) + ImportedFuncs(imports[1..])
  }

  function ImportedTables(imports: seq<V.Import>): seq<V.TableType> {
    if imports == [] then []
    else (if imports[0].ImportTable? then [imports[0].table] else []) + ImportedTables(imports[1..])
  }

  function ImportedMemories(imports: seq<V.Import>): seq<V.Limit> {
    if imports == [] then []
    else (if imports[0].ImportMemory? then [imports[0].limit] else []) + ImportedMemories(imports[1..])
  }

  function ImportedGlobals(imports: seq<V.Import>): seq<V.GlobalDecl> {
    if imports == [] then []
    else (if imports[0].ImportGlobal? then [imports[0].global] else []) + ImportedGlobals(imports[1..])
  }

  function Funcs(m: V.Module): seq<nat> {
    ImportedFuncs(m.imports) + if m.funcs.Some? then m.funcs.value else []
  }

  function Tables(m: V.Module): seq<V.TableType> {
    ImportedTables(m.imports) + m.tables
  }

  function Memories(m: V.Module): seq<V.Limit> {
    ImportedMemories(m.imports) + m.memories
  }

  /** The imported globals and the first `n` of the module. */
  function Globals(m: V.Module, n: nat): seq<V.GlobalDecl>
    requires n <= |m.globals|
  {
    ImportedGlobals(m.imports) + seq(n, k requires 0 <= k < n => m.globals[k].decl)
  }

  // ----- contexts -----

  /** The context that these index spaces make. */
  function Space(m: V.Module, funcs: seq<nat>, globals: seq<V.GlobalDecl>, locals: seq<ValType>, results: seq<ValType>)
      : Context
  {
    Context(
      seq(|m.types|, k requires 0 <= k < |m.types| => Sig(K(m.types[k].take), K(m.types[k].put))),
      funcs,
      seq(|Tables(m)|, k requires 0 <= k < |Tables(m)| => Tables(m)[k].elem),
      |Memories(m)|,
      seq(|globals|, k requires 0 <= k < |globals| => GlobalType(Known(globals[k].t), globals[k].mutable)),
      K(locals), K(results))
  }

  predicate TypesExist(m: V.Module, funcs: seq<nat>) {
    forall k :: 0 <= k < |funcs| ==> funcs[k] < |m.types|
  }

  /** Locals with their counts written out. */
  function LocalTypes(ls: seq<(U32, ValType)>): seq<ValType> {
    if ls == [] then [] else seq(ls[0].0, _ => ls[0].1) + LocalTypes(ls[1..])
  }

  // ----- conditions -----

  predicate WithinRange(l: V.Limit, bound: nat) {
    match l.max
    case None => l.min <= bound
    case Some(max) => l.min <= max <= bound
  }

  /** An expression of constants and reads of the globals so far. */
  predicate ConstantExpr(m: V.Module, funcs: seq<nat>, globals: seq<V.GlobalDecl>, code: seq<Instr>, t: ValType)
    requires TypesExist(m, funcs)
  {
    && (forall k :: 0 <= k < |code| ==> code[k].Const? || code[k].GlobalGet?)
    && CheckBody(Space(m, funcs, globals, [], [t]), code)
  }

  predicate ValidFunctions(m: V.Module)
    requires TypesExist(m, Funcs(m))
  {
    match (m.funcs, m.code)
    case (None, None) => true
    case (Some(fs), Some(code)) =>
      && |fs| == |code|
      && forall k :: 0 <= k < |fs| ==>
           && fs[k] < |m.types|
           && var t := m.types[fs[k]];
              CheckBody(Space(m, Funcs(m), Globals(m, |m.globals|), t.take + LocalTypes(code[k].locals), t.put),
                        code[k].body)
    case _ => false
  }

  predicate ValidSegments(m: V.Module)
    requires TypesExist(m, Funcs(m))
  {
    && (forall k :: 0 <= k < |m.elements| ==>
          var e := m.elements[k];
          && e.table < |Tables(m)| && Tables(m)[e.table].elem == 0x70
          && (forall j :: 0 <= j < |e.funcs| ==> e.funcs[j] < |Funcs(m)|)
          && ConstantExpr(m, Funcs(m), Globals(m, |m.globals|), e.offset, I32))
    && forall k :: 0 <= k < |m.data| ==>
         && m.data[k].memory < |Memories(m)|
         && ConstantExpr(m, Funcs(m), Globals(m, |m.globals|), m.data[k].offset, I32)
  }

  predicate ValidExports(m: V.Module) {
    forall k :: 0 <= k < |m.exports| ==>
      var e := m.exports[k];
      && e.name != "" && (forall j :: 0 <= j < |m.exports| && m.exports[j].name == e.name ==> j == k)
      && e.index < match e.kind
                   case ExportFunction => |Funcs(m)|
                   case ExportTable => |Tables(m)|
                   case ExportMemory => |Memories(m)|
                   case ExportGlobal => |ImportedGlobals(m.imports)| + |m.globals|
  }

  ghost predicate ValidModule(m: V.Module) {
    && TypesExist(m, ImportedFuncs(m.imports)) && TypesExist(m, Funcs(m))
    && (forall k :: 0 <= k < |Tables(m)| ==> WithinRange(Tables(m)[k].limit, 0xFFFF_FFFF))
    && (forall k :: 0 <= k < |Memories(m)| ==> WithinRange(Memories(m)[k], 65536))
    && |Tables(m)| <= 1 && |Memories(m)| <= 1
    && (forall k :: 0 <= k < |m.globals| ==>
          ConstantExpr(m, ImportedFuncs(m.imports), Globals(m, k), m.globals[k].init, m.globals[k].decl.t))
    && ValidFunctions(m) && ValidSegments(m) && ValidExports(m)
    && (m.start.Some? ==>
          m.start.value < |Funcs(m)| && m.types[Funcs(m)[m.start.value]] == Sig([], []))
  }

  // ----- the contexts agree -----

  lemma {:induction false} LastFunc(s: seq<V.Import>, i: V.Import)
    ensures ImportedFuncs(s + [i]) == ImportedFuncs(s) + ImportedFuncs([i])
  {
    if s != [] {
      assert (s + [i])[1..] == s[1..] + [i];
      LastFunc(s[1..], i);
    }
  }

  lemma {:induction false} LastTable(s: seq<V.Import>, i: V.Import)
    ensures ImportedTables(s + [i]) == ImportedTables(s) + ImportedTables([i])
  {
    if s != [] {
      assert (s + [i])[1..] == s[1..] + [i];
      LastTable(s[1..], i);
    }
  }

  lemma {:induction false} LastMemory(s: seq<V.Import>, i: V.Import)
    ensures ImportedMemories(s + [i]) == ImportedMemories(s) + ImportedMemories([i])
  {
    if s != [] {
      assert (s + [i])[1..] == s[1..] + [i];
      LastMemory(s[1..], i);
    }
  }

  lemma {:induction false} LastGlobal(s: seq<V.Import>, i: V.Import)
    ensures ImportedGlobals(s + [i]) == ImportedGlobals(s) + ImportedGlobals([i])
  {
    if s != [] {
      assert (s + [i])[1..] == s[1..] + [i];
      LastGlobal(s[1..], i);
    }
  }

  function Elems(ts: seq<V.TableType>): seq<Byte> {
    seq(|ts|, k requires 0 <= k < |ts| => ts[k].elem)
  }

  function Kinds(gs: seq<V.GlobalDecl>): seq<GlobalType> {
    seq(|gs|, k requires 0 <= k < |gs| => GlobalType(Known(gs[k].t), gs[k].mutable))
  }

  lemma {:induction false} ImportsAgree(c: Context, imports: seq<V.Import>)
    ensures V.WithImports(c, imports) ==
      c.(funcs := c.funcs + ImportedFuncs(imports), tables := c.tables + Elems(ImportedTables(imports)),
         memories := c.memories + |ImportedMemories(imports)|,
         globals := c.globals + Kinds(ImportedGlobals(imports)))
    decreases |imports|
  {
    if imports != [] {
      var n := |imports| - 1;
      ImportsAgree(c, imports[..n]);
      LastFunc(imports[..n], imports[n]);
      LastTable(imports[..n], imports[n]);
      LastMemory(imports[..n], imports[n]);
      LastGlobal(imports[..n], imports[n]);
      assert imports[..n] + [imports[n]] == imports;
    }
  }

  lemma DeclaredSpace(m: V.Module, n: nat)
    requires n <= |m.globals|
    ensures var c := V.Declared(m);
            c.(globals := c.globals + V.GlobalsOf(m.globals[..n]))
            == Space(m, ImportedFuncs(m.imports), Globals(m, n), [], [])
  {
    hide ImportedFuncs, ImportedTables, ImportedMemories, ImportedGlobals, V.WithImports;
    ImportsAgree(Context(V.SigsOf(m.types), [], [], 0, [], [], []), m.imports);
    assert K([]) == [];
    var c := V.Declared(m);
    assert c.tables == Space(m, [], [], [], []).tables;
    assert c.globals + V.GlobalsOf(m.globals[..n]) == Space(m, [], Globals(m, n), [], []).globals;
  }

  lemma FullSpace(m: V.Module)
    ensures V.FullContext(m) == Space(m, Funcs(m), Globals(m, |m.globals|), [], [])
  {
    hide ImportedFuncs, ImportedTables, ImportedMemories, ImportedGlobals, V.Declared, Globals;
    DeclaredSpace(m, |m.globals|);
    assert m.globals[..|m.globals|] == m.globals;
  }

  lemma {:induction false} FirstLocals(ls: seq<(U32, ValType)>, t: (U32, ValType))
    ensures LocalTypes(ls + [t]) == LocalTypes(ls) + seq(t.0, _ => t.1)
  {
    if ls != [] {
      assert (ls + [t])[1..] == ls[1..] + [t];
      FirstLocals(ls[1..], t);
    } else {
      assert ([t])[1..] == [] && ls + [t] == [t];
    }
  }

  lemma {:induction false} LocalsAgree(ls: seq<(U32, ValType)>)
    ensures V.Expanded(ls) == K(LocalTypes(ls))
    decreases |ls|
  {
    if ls != [] {
      var n := |ls| - 1;
      LocalsAgree(ls[..n]);
      FirstLocals(ls[..n], ls[n]);
      assert ls[..n] + [ls[n]] == ls;
    }
  }

  // ----- the conditions agree -----

  lemma RangeIff(l: V.Limit, bound: nat)
    ensures V.LimitOk(l, bound) <==> WithinRange(l, bound)
  {
  }

  predicate TablesWithin(ts: seq<V.TableType>) {
    forall k :: 0 <= k < |ts| ==> WithinRange(ts[k].limit, 0xFFFF_FFFF)
  }

  predicate MemoriesWithin(ls: seq<V.Limit>) {
    forall k :: 0 <= k < |ls| ==> WithinRange(ls[k], 65536)
  }

  predicate ImportsOk(types: nat, imports: seq<V.Import>) {
    forall k :: 0 <= k < |imports| ==> V.ImportOk(types, imports[k])
  }

  predicate Below(types: nat, funcs: seq<nat>) {
    forall k :: 0 <= k < |funcs| ==> funcs[k] < types
  }

  lemma TablesConcat(s: seq<V.TableType>, t: seq<V.TableType>)
    ensures TablesWithin(s + t) <==> TablesWithin(s) && TablesWithin(t)
  {
    hide WithinRange;
    if TablesWithin(s + t) {
      assert forall k :: 0 <= k < |s| ==> s[k] == (s + t)[k];
      assert forall k :: 0 <= k < |t| ==> t[k] == (s + t)[|s| + k];
    }
  }

  lemma MemoriesConcat(s: seq<V.Limit>, t: seq<V.Limit>)
    ensures MemoriesWithin(s + t) <==> MemoriesWithin(s) && MemoriesWithin(t)
  {
    hide WithinRange;
    if MemoriesWithin(s + t) {
      assert forall k :: 0 <= k < |s| ==> s[k] == (s + t)[k];
      assert forall k :: 0 <= k < |t| ==> t[k] == (s + t)[|s| + k];
    }
  }

  lemma BelowConcat(types: nat, s: seq<nat>, t: seq<nat>)
    ensures Below(types, s + t) <==> Below(types, s) && Below(types, t)
  {
    if Below(types, s + t) {
      assert forall k :: 0 <= k < |s| ==> s[k] == (s + t)[k];
      assert forall k :: 0 <= k < |t| ==> t[k] == (s + t)[|s| + k];
    }
  }

  lemma {:induction false} ImportsIff(types: nat, imports: seq<V.Import>)
    ensures ImportsOk(types, imports)
       <==> && Below(types, ImportedFuncs(imports)) && TablesWithin(ImportedTables(imports))
            && MemoriesWithin(ImportedMemories(imports))
  {
    if imports != [] {
      var i, rest := imports[0], imports[1..];
      ImportsIff(types, rest);
      assert ImportsOk(types, imports) <==> V.ImportOk(types, i) && ImportsOk(types, rest) by {
        assert imports == [i] + rest;
      }
      hide ImportsOk, Below, TablesWithin, MemoriesWithin, ImportedFuncs, ImportedTables, ImportedMemories;
      FirstFunc(types, imports);
      FirstTable(imports);
      FirstMemory(imports);
    }
  }

  lemma BelowCons(types: nat, x: nat, t: seq<nat>)
    ensures Below(types, [x] + t) <==> x < types && Below(types, t)
  {
    BelowConcat(types, [x], t);
    assert [x][0] == x;
    assert Below(types, [x]) ==> x < types;
  }

  lemma TablesCons(x: V.TableType, t: seq<V.TableType>)
    ensures TablesWithin([x] + t) <==> WithinRange(x.limit, 0xFFFF_FFFF) && TablesWithin(t)
  {
    TablesConcat([x], t);
    assert [x][0] == x;
    assert TablesWithin([x]) ==> WithinRange(x.limit, 0xFFFF_FFFF);
  }

  lemma MemoriesCons(x: V.Limit, t: seq<V.Limit>)
    ensures MemoriesWithin([x] + t) <==> WithinRange(x, 65536) && MemoriesWithin(t)
  {
    MemoriesConcat([x], t);
    assert [x][0] == x;
    assert MemoriesWithin([x]) ==> WithinRange(x, 65536);
  }

  lemma FirstFunc(types: nat, imports: seq<V.Import>)
    requires imports != []
    ensures var i := imports[0];
            Below(types, ImportedFuncs(imports))
            <==> (i.ImportFunction? ==> i.typeIdx < types) && Below(types, ImportedFuncs(imports[1..]))
  {
    hide Below;
    if imports[0].ImportFunction? {
      BelowCons(types, imports[0].typeIdx as nat, ImportedFuncs(imports[1..]));
    } else {
      assert ImportedFuncs(imports) == ImportedFuncs(imports[1..]);
    }
  }

  lemma FirstTable(imports: seq<V.Import>)
    requires imports != []
    ensures var i := imports[0];
            TablesWithin(ImportedTables(imports))
            <==> && (i.ImportTable? ==> WithinRange(i.table.limit, 0xFFFF_FFFF))
                 && TablesWithin(ImportedTables(imports[1..]))
  {
    hide WithinRange, TablesWithin;
    if imports[0].ImportTable? {
      TablesCons(imports[0].table, ImportedTables(imports[1..]));
    } else {
      assert ImportedTables(imports) == ImportedTables(imports[1..]);
    }
  }

  lemma FirstMemory(imports: seq<V.Import>)
    requires imports != []
    ensures var i := imports[0];
            MemoriesWithin(ImportedMemories(imports))
            <==> (i.ImportMemory? ==> WithinRange(i.limit, 65536)) && MemoriesWithin(ImportedMemories(imports[1..]))
  {
    hide WithinRange, MemoriesWithin;
    if imports[0].ImportMemory? {
      MemoriesCons(imports[0].limit, ImportedMemories(imports[1..]));
    } else {
      assert ImportedMemories(imports) == ImportedMemories(imports[1..]);
    }
  }

  lemma DeclarationsIff(m: V.Module)
    ensures V.DeclarationsOk(m)
       <==> TypesExist(m, ImportedFuncs(m.imports)) && TablesWithin(Tables(m)) && MemoriesWithin(Memories(m))
  {
    hide ImportedFuncs, ImportedTables, ImportedMemories;
    ImportsIff(|m.types|, m.imports);
    var ts, ls := ImportedTables(m.imports), ImportedMemories(m.imports);
    TablesConcat(ts, m.tables);
    MemoriesConcat(ls, m.memories);
    forall k | 0 <= k < |m.tables|
      ensures V.LimitOk(m.tables[k].limit, V.TABLE_LIMIT) <==> WithinRange(m.tables[k].limit, 0xFFFF_FFFF)
    {
      RangeIff(m.tables[k].limit, 0xFFFF_FFFF);
    }
    forall k | 0 <= k < |m.memories|
      ensures V.LimitOk(m.memories[k], V.MEMORY_LIMIT) <==> WithinRange(m.memories[k], 65536) {
      RangeIff(m.memories[k], 65536);
    }
  }

  lemma TypesIff(m: V.Module)
    ensures TypesExist(m, Funcs(m))
       <==> && TypesExist(m, ImportedFuncs(m.imports))
            && (m.funcs.Some? ==> V.FuncTypesOk(|m.types|, m.funcs.value))
  {
    hide ImportedFuncs;
    if m.funcs.Some? {
      BelowConcat(|m.types|, ImportedFuncs(m.imports), m.funcs.value);
    } else {
      assert Funcs(m) == ImportedFuncs(m.imports);
    }
  }

  lemma ConstantIff(m: V.Module, funcs: seq<nat>, globals: seq<V.GlobalDecl>, code: seq<Instr>, t: ValType)
    requires TypesExist(m, funcs)
    ensures Space(m, funcs, globals, [], []).Valid()
    ensures ConstantExpr(m, funcs, globals, code, t) <==> V.ConstOk(Space(m, funcs, globals, [], []), code, t)
  {
    hide CheckBody, Tables, Memories;
    var c := Space(m, funcs, globals, [], []);
    assert K([]) == [] && K([t]) == [Known(t)];
    assert c.(locals := [], results := [Known(t)]) == Space(m, funcs, globals, [], [t]);
  }

  lemma GlobalsIff(m: V.Module)
    requires V.DeclarationsOk(m) && TypesExist(m, ImportedFuncs(m.imports))
    ensures V.Declared(m).Valid()
    ensures V.GlobalsOk(V.Declared(m), m.globals)
       <==> forall k :: 0 <= k < |m.globals| ==>
              ConstantExpr(m, ImportedFuncs(m.imports), Globals(m, k), m.globals[k].init, m.globals[k].decl.t)
  {
    V.DeclaredValid(m);
    hide V.Declared, V.ConstOk, ConstantExpr, ImportedFuncs, Globals, V.GlobalsOf, Space, V.DeclarationsOk;
    forall k | 0 <= k < |m.globals|
      ensures var c := V.Declared(m);
              ConstantExpr(m, ImportedFuncs(m.imports), Globals(m, k), m.globals[k].init, m.globals[k].decl.t)
              <==> V.ConstOk(c.(globals := c.globals + V.GlobalsOf(m.globals[..k])), m.globals[k].init,
                             m.globals[k].decl.t)
    {
      DeclaredSpace(m, k);
      ConstantIff(m, ImportedFuncs(m.imports), Globals(m, k), m.globals[k].init, m.globals[k].decl.t);
    }
  }

  lemma BodyIff(m: V.Module, f: U32, code: V.CodeSegment)
    requires TypesExist(m, Funcs(m)) && f < |m.types|
    ensures V.FullContext(m).Valid() && |V.FullContext(m).types| == |m.types|
    ensures V.BodyOk(V.FullContext(m), f, code)
       <==> CheckBody(Space(m, Funcs(m), Globals(m, |m.globals|), m.types[f].take + LocalTypes(code.locals),
                            m.types[f].put), code.body)
  {
    FullSpace(m);
    hide V.FullContext, CheckBody, Funcs, Globals, Tables, Memories, LocalTypes, V.Expanded;
    LocalsAgree(code.locals);
    var c, t, ls := V.FullContext(m), m.types[f], LocalTypes(code.locals);
    assert K(t.take + ls) == K(t.take) + K(ls);
    assert c.(locals := c.types[f].take + V.Expanded(code.locals), results := c.types[f].put)
        == Space(m, Funcs(m), Globals(m, |m.globals|), t.take + ls, t.put);
  }

  lemma FunctionsIff(m: V.Module)
    requires TypesExist(m, Funcs(m)) && (m.funcs.Some? ==> V.FuncTypesOk(|m.types|, m.funcs.value))
    ensures V.FullContext(m).Valid() && |V.FullContext(m).types| == |m.types|
    ensures ValidFunctions(m)
       <==> && (m.funcs.Some? <==> m.code.Some?)
            && (m.funcs.Some? ==> V.BodiesOk(V.FullContext(m), m.funcs.value, m.code.value))
  {
    FullSpace(m);
    hide V.FullContext, V.BodyOk, CheckBody, Funcs, Globals, Tables, Memories, LocalTypes;
    if m.funcs.Some? && m.code.Some? && |m.funcs.value| == |m.code.value| {
      forall k | 0 <= k < |m.funcs.value|
        ensures var t := m.types[m.funcs.value[k]];
                V.BodyOk(V.FullContext(m), m.funcs.value[k], m.code.value[k])
                <==> CheckBody(Space(m, Funcs(m), Globals(m, |m.globals|),
                                     t.take + LocalTypes(m.code.value[k].locals), t.put), m.code.value[k].body)
      {
        BodyIff(m, m.funcs.value[k], m.code.value[k]);
      }
    }
  }

  lemma ElementIff(m: V.Module, e: V.ElementSegment)
    requires TypesExist(m, Funcs(m))
    ensures V.FullContext(m).Valid()
    ensures V.ElementOk(V.FullContext(m), e)
       <==> && e.table < |Tables(m)| && Tables(m)[e.table].elem == 0x70
            && (forall j :: 0 <= j < |e.funcs| ==> e.funcs[j] < |Funcs(m)|)
            && ConstantExpr(m, Funcs(m), Globals(m, |m.globals|), e.offset, I32)
  {
    FullSpace(m);
    hide V.FullContext, V.ConstOk, ConstantExpr, Funcs, Globals, Tables, Memories;
    ConstantIff(m, Funcs(m), Globals(m, |m.globals|), e.offset, I32);
  }

  lemma DataIff(m: V.Module, d: V.DataSegment)
    requires TypesExist(m, Funcs(m))
    ensures V.FullContext(m).Valid()
    ensures V.DataOk(V.FullContext(m), d)
       <==> d.memory < |Memories(m)| && ConstantExpr(m, Funcs(m), Globals(m, |m.globals|), d.offset, I32)
  {
    FullSpace(m);
    hide V.FullContext, V.ConstOk, ConstantExpr, Funcs, Globals, Tables, Memories;
    ConstantIff(m, Funcs(m), Globals(m, |m.globals|), d.offset, I32);
  }

  lemma SegmentsIff(m: V.Module)
    requires TypesExist(m, Funcs(m))
    ensures V.FullContext(m).Valid()
    ensures ValidSegments(m)
       <==> && (forall k :: 0 <= k < |m.elements| ==> V.ElementOk(V.FullContext(m), m.elements[k]))
            && (forall k :: 0 <= k < |m.data| ==> V.DataOk(V.FullContext(m), m.data[k]))
  {
    FullSpace(m);
    hide V.FullContext, V.ElementOk, V.DataOk, ConstantExpr, Funcs, Globals, Tables, Memories;
    forall k | 0 <= k < |m.elements|
      ensures V.ElementOk(V.FullContext(m), m.elements[k])
         <==> var e := m.elements[k];
              && e.table < |Tables(m)| && Tables(m)[e.table].elem == 0x70
              && (forall j :: 0 <= j < |e.funcs| ==> e.funcs[j] < |Funcs(m)|)
              && ConstantExpr(m, Funcs(m), Globals(m, |m.globals|), e.offset, I32)
    {
      ElementIff(m, m.elements[k]);
    }
    forall k | 0 <= k < |m.data|
      ensures V.DataOk(V.FullContext(m), m.data[k])
         <==> && m.data[k].memory < |Memories(m)|
              && ConstantExpr(m, Funcs(m), Globals(m, |m.globals|), m.data[k].offset, I32)
    {
      DataIff(m, m.data[k]);
    }
  }

  lemma ExportsIff(m: V.Module)
    ensures ValidExports(m) <==> V.ExportsOk(V.FullContext(m), m.exports)
  {
    FullSpace(m);
    assert |Globals(m, |m.globals|)| == |ImportedGlobals(m.imports)| + |m.globals|;
    hide V.FullContext, Funcs, Globals, Tables, Memories, ImportedGlobals;
    var c := V.FullContext(m);
    forall k | 0 <= k < |m.exports|
      ensures V.ExportOk(c, m.exports[k])
         <==> m.exports[k].index < match m.exports[k].kind
                                   case ExportFunction => |Funcs(m)|
                                   case ExportTable => |Tables(m)|
                                   case ExportMemory => |Memories(m)|
                                   case ExportGlobal => |ImportedGlobals(m.imports)| + |m.globals|
    {
    }
  }

  lemma StartIff(m: V.Module, f: U32)
    requires TypesExist(m, Funcs(m))
    ensures V.FullContext(m).Valid()
    ensures V.StartOk(V.FullContext(m), f) <==> f < |Funcs(m)| && m.types[Funcs(m)[f]] == Sig([], [])
  {
    FullSpace(m);
    hide V.FullContext, Funcs, Globals, Tables, Memories;
    assert forall t: Sig<ValType> {:trigger K(t.take)} :: K(t.take) == [] <==> t.take == [];
    assert forall t: Sig<ValType> {:trigger K(t.put)} :: K(t.put) == [] <==> t.put == [];
  }

  /** The validator's verdict is validity. */
  lemma AcceptedIffValid(m: V.Module)
    ensures V.Accepted(m) <==> ValidModule(m)
  {
    hide V.DeclarationsOk, V.GlobalsOk, V.BodiesOk, V.FuncTypesOk, V.ElementOk, V.DataOk, V.StartOk, V.ExportsOk,
         V.FullContext, V.Declared, TypesExist, Funcs, Globals, Tables, Memories, ImportedFuncs, ConstantExpr,
         ValidFunctions, ValidSegments, ValidExports, WithinRange;
    DeclarationsIff(m);
    TypesIff(m);
    if V.DeclarationsOk(m) {
      GlobalsIff(m);
      if TypesExist(m, Funcs(m)) {
        FunctionsIff(m);
        SegmentsIff(m);
        ExportsIff(m);
        if m.start.Some? {
          StartIff(m, m.start.value);
        }
        FullSpace(m);
      }
    }
  }

  // ----- the bodies of a valid module -----

  lemma SpaceKnown(m: V.Module, funcs: seq<nat>, globals: seq<V.GlobalDecl>, locals: seq<ValType>,
                   results: seq<ValType>)
    requires TypesExist(m, funcs)
    ensures Principal.KnownContext(Space(m, funcs, globals, locals, results))
  {
    hide Tables, Memories;
  }

  /** The context in which function `k` of the module itself is checked. */
  function BodySpace(m: V.Module, k: nat): Context
    requires m.funcs.Some? && m.code.Some? && k < |m.funcs.value| == |m.code.value| && m.funcs.value[k] < |m.types|
  {
    var t := m.types[m.funcs.value[k]];
    Space(m, Funcs(m), Globals(m, |m.globals|), t.take + LocalTypes(m.code.value[k].locals), t.put)
  }

  /** Every body of an accepted module whose `if`s are proper is typed by the rules, with
      some end, under a function label that carries nothing. */
  lemma BodiesTyped(m: V.Module, k: nat)
    requires V.Accepted(m) && m.funcs.Some? && k < |m.funcs.value|
    ensures m.code.Some? && |m.funcs.value| == |m.code.value| && m.funcs.value[k] < |m.types|
    ensures BodySpace(m, k).Valid()
    ensures (exists us :: Declarative.SeqTyped(BodySpace(m, k), [[]], m.code.value[k].body, [], us))
       <==> Declarative.ProperSeq(BodySpace(m, k), [[]], NOTHING, m.code.value[k].body)
  {
    hide V.Accepted, CheckBody, Declarative.SeqTyped, Declarative.ProperSeq, Space, Funcs, Globals;
    AcceptedIffValid(m);
    var t := m.types[m.funcs.value[k]];
    SpaceKnown(m, Funcs(m), Globals(m, |m.globals|), t.take + LocalTypes(m.code.value[k].locals), t.put);
    Principal.BodyIffTyped(BodySpace(m, k), m.code.value[k].body);
  }
}
