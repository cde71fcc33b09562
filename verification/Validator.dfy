/** Module validation: one form checker, reused for every expression of every
    module, against a verdict that is a property of the module alone. */
module Validator {
  import opened Wasm
  import opened Typing
  import FC = FormChecker

  datatype Limit = Limit(min: U32, max: Option<U32>)

  datatype TableType = TableType(elem: Byte, limit: Limit)

  datatype GlobalDecl = GlobalDecl(t: ValType, mutable: bool)

  datatype Import =
    | ImportFunction(typeIdx: U32)
    | ImportTable(table: TableType)
    | ImportMemory(limit: Limit)
    | ImportGlobal(global: GlobalDecl)

  datatype GlobalSegment = GlobalSegment(decl: GlobalDecl, init: seq<Instr>)

  datatype CodeSegment = CodeSegment(locals: seq<(U32, ValType)>, body: seq<Instr>)

  datatype ElementSegment = ElementSegment(table: U32, funcs: seq<U32>, offset: seq<Instr>)

  datatype DataSegment = DataSegment(memory: U32, offset: seq<Instr>)

  datatype ExportKind = ExportFunction | ExportTable | ExportMemory | ExportGlobal

  datatype Export = Export(name: string, kind: ExportKind, index: U32)

  datatype Module = Module(
    types: seq<Sig<ValType>>,
    imports: seq<Import>,
    tables: seq<TableType>,
    memories: seq<Limit>,
    globals: seq<GlobalSegment>,
    funcs: Option<seq<U32>>,
    code: Option<seq<CodeSegment>>,
    elements: seq<ElementSegment>,
    data: seq<DataSegment>,
    start: Option<U32>,
    exports: seq<Export>)

  const TABLE_LIMIT: nat := 0xFFFF_FFFF
  const MEMORY_LIMIT: nat := 0x1_0000

  // ----- the verdict -----

  predicate LimitOk(l: Limit, k: nat) {
    l.min <= k && (l.max.Some? ==> l.max.value <= k && l.min <= l.max.value)
  }

  function TypeOf(g: GlobalDecl): GlobalType {
    GlobalType(Known(g.t), g.mutable)
  }

  function SigsOf(ts: seq<Sig<ValType>>): (r: seq<Sig<VType>>)
    ensures |r| == |ts|
  {
    seq(|ts|, k requires 0 <= k < |ts| => Sig(K(ts[k].take), K(ts[k].put)))
  }

  predicate ImportOk(types: nat, i: Import) {
    match i
    case ImportFunction(x) => x < types
    case ImportTable(t) => LimitOk(t.limit, TABLE_LIMIT)
    case ImportMemory(l) => LimitOk(l, MEMORY_LIMIT)
    case ImportGlobal(_) => true
  }

  function WithImport(c: Context, i: Import): Context {
    match i
    case ImportFunction(x) => c.(funcs := c.funcs + [x])
    case ImportTable(t) => c.(tables := c.tables + [t.elem])
    case ImportMemory(_) => c.(memories := c.memories + 1)
    case ImportGlobal(g) => c.(globals := c.globals + [TypeOf(g)])
  }

  /** The context that the first imports declare. */
  function WithImports(c: Context, imports: seq<Import>): Context {
    if imports == [] then c else WithImport(WithImports(c, imports[..|imports| - 1]), imports[|imports| - 1])
  }

  function ElemsOf(ts: seq<TableType>): seq<Byte> {
    seq(|ts|, k requires 0 <= k < |ts| => ts[k].elem)
  }

  function GlobalsOf(gs: seq<GlobalSegment>): seq<GlobalType> {
    seq(|gs|, k requires 0 <= k < |gs| => TypeOf(gs[k].decl))
  }

  /** The context before any global of the module itself. */
  function Declared(m: Module): Context {
    var c := WithImports(Context(SigsOf(m.types), [], [], 0, [], [], []), m.imports);
    c.(tables := c.tables + ElemsOf(m.tables), memories := c.memories + |m.memories|)
  }

  /** The context in which function bodies are checked. */
  function FullContext(m: Module): Context {
    var c := Declared(m);
    c.(globals := c.globals + GlobalsOf(m.globals), funcs := c.funcs + if m.funcs.Some? then m.funcs.value else [])
  }

  predicate IsConst(i: Instr) {
    i.GlobalGet? || i.Const?
  }

  /** A constant expression in its own frame; as for bodies, what it leaves is not
      compared with the expected type. */
  predicate ConstOk(c: Context, code: seq<Instr>, t: ValType)
    requires c.Valid()
  {
    && (forall k :: 0 <= k < |code| ==> IsConst(code[k]))
    && CheckBody(c.(locals := [], results := [Known(t)]), code)
  }

  function Expanded(ls: seq<(U32, ValType)>): seq<VType> {
    if ls == [] then []
    else Expanded(ls[..|ls| - 1]) + seq(ls[|ls| - 1].0, _ => Known(ls[|ls| - 1].1))
  }

  /** A function body on its own, in the context of the module. */
  predicate BodyOk(c: Context, f: U32, code: CodeSegment)
    requires c.Valid() && f < |c.types|
  {
    CheckBody(c.(locals := c.types[f].take + Expanded(code.locals), results := c.types[f].put), code.body)
  }

  predicate ElementOk(c: Context, e: ElementSegment)
    requires c.Valid()
  {
    && e.table < |c.tables| && c.tables[e.table] == FUNC_REF
    && (forall k :: 0 <= k < |e.funcs| ==> e.funcs[k] < |c.funcs|)
    && ConstOk(c, e.offset, I32)
  }

  predicate DataOk(c: Context, d: DataSegment)
    requires c.Valid()
  {
    d.memory < c.memories && ConstOk(c, d.offset, I32)
  }

  predicate StartOk(c: Context, f: U32)
    requires c.Valid()
  {
    f < |c.funcs| && c.types[c.funcs[f]].take == [] && c.types[c.funcs[f]].put == []
  }

  predicate ExportOk(c: Context, e: Export) {
    match e.kind
    case ExportFunction => e.index < |c.funcs|
    case ExportTable => e.index < |c.tables|
    case ExportMemory => e.index < c.memories
    case ExportGlobal => e.index < |c.globals|
  }

  predicate ExportsOk(c: Context, es: seq<Export>) {
    && (forall k :: 0 <= k < |es| ==> es[k].name != "" && ExportOk(c, es[k]))
    && forall j, k :: 0 <= j < k < |es| ==> es[j].name != es[k].name
  }

  /** The part of the verdict that later parts rely on. */
  predicate DeclarationsOk(m: Module) {
    && (forall k :: 0 <= k < |m.imports| ==> ImportOk(|m.types|, m.imports[k]))
    && (forall k :: 0 <= k < |m.tables| ==> LimitOk(m.tables[k].limit, TABLE_LIMIT))
    && (forall k :: 0 <= k < |m.memories| ==> LimitOk(m.memories[k], MEMORY_LIMIT))
  }

  lemma {:induction false} WithImportsValid(c: Context, imports: seq<Import>)
    requires c.Valid() && forall k :: 0 <= k < |imports| ==> ImportOk(|c.types|, imports[k])
    ensures WithImports(c, imports).Valid() && WithImports(c, imports).types == c.types
    ensures WithImports(c, imports).locals == c.locals && WithImports(c, imports).results == c.results
  {
    if imports != [] {
      WithImportsValid(c, imports[..|imports| - 1]);
      assert ImportOk(|c.types|, imports[|imports| - 1]);
    }
  }

  lemma DeclaredValid(m: Module)
    requires DeclarationsOk(m)
    ensures Declared(m).Valid() && |Declared(m).types| == |m.types|
  {
    WithImportsValid(Context(SigsOf(m.types), [], [], 0, [], [], []), m.imports);
  }

  /** Each global may read the imports and the globals before it. */
  predicate GlobalsOk(c: Context, gs: seq<GlobalSegment>)
    requires c.Valid()
  {
    forall k :: 0 <= k < |gs| ==>
      ConstOk(c.(globals := c.globals + GlobalsOf(gs[..k])), gs[k].init, gs[k].decl.t)
  }

  predicate FuncTypesOk(types: nat, fs: seq<U32>) {
    forall k :: 0 <= k < |fs| ==> fs[k] < types
  }

  /** A function section is accepted exactly when there is a body for each function
      and each body is accepted separately in the same context. */
  predicate BodiesOk(c: Context, fs: seq<U32>, code: seq<CodeSegment>)
    requires c.Valid() && FuncTypesOk(|c.types|, fs)
  {
    |fs| == |code| && forall k :: 0 <= k < |fs| ==> BodyOk(c, fs[k], code[k])
  }

  lemma FullValid(m: Module)
    requires DeclarationsOk(m) && (m.funcs.Some? ==> FuncTypesOk(|m.types|, m.funcs.value))
    ensures FullContext(m).Valid() && |FullContext(m).types| == |m.types|
  {
    DeclaredValid(m);
  }

  /** The verdict on a module: it mentions no checker and no earlier module. */
  ghost predicate Accepted(m: Module) {
    && DeclarationsOk(m)
    && (DeclaredValid(m); GlobalsOk(Declared(m), m.globals))
    && (m.funcs.Some? <==> m.code.Some?)
    && (m.funcs.Some? ==> FuncTypesOk(|m.types|, m.funcs.value))
    && var c := FullContext(m);
    && (FullValid(m); m.funcs.Some? ==> BodiesOk(c, m.funcs.value, m.code.value))
    && (FullValid(m); forall k :: 0 <= k < |m.elements| ==> ElementOk(c, m.elements[k]))
    && (FullValid(m); forall k :: 0 <= k < |m.data| ==> DataOk(c, m.data[k]))
    && (FullValid(m); m.start.Some? ==> StartOk(c, m.start.value))
    && ExportsOk(c, m.exports)
    && |c.tables| <= 1 && c.memories <= 1
  }

  // ----- the validator -----

  class Validator {
    const checker: FC.FormChecker

    constructor ()
      ensures fresh(checker)
    {
      checker := new FC.FormChecker();
    }

    /** The module-level part of the checker's context. */
    function Base(): Context
      reads checker
    {
      checker.Ctx().(locals := [], results := [])
    }

    method ValidateImports(imports: seq<Import>) returns (ok: bool)
      requires Base().Valid()
      modifies checker
      ensures ok <==> forall k :: 0 <= k < |imports| ==> ImportOk(|old(Base()).types|, imports[k])
      ensures ok ==> Base() == WithImports(old(Base()), imports)
    {
      for k := 0 to |imports|
        invariant forall j :: 0 <= j < k ==> ImportOk(|old(Base()).types|, imports[j])
        invariant Base() == WithImports(old(Base()), imports[..k]) && Base().types == old(Base()).types
      {
        assert imports[..k + 1][..k] == imports[..k];
        var i := imports[k];
        if !ImportOk(|checker.types|, i) {
          return false;
        }
        match i
        case ImportFunction(x) => checker.AddFunc(x);
        case ImportTable(t) => checker.AddTable(t.elem);
        case ImportMemory(_) => checker.AddMemory();
        case ImportGlobal(g) => checker.AddGlobal(TypeOf(g), true);
      }
      assert imports[..|imports|] == imports;
      ok := true;
    }

    method ValidateTables(tables: seq<TableType>) returns (ok: bool)
      modifies checker
      ensures ok <==> forall k :: 0 <= k < |tables| ==> LimitOk(tables[k].limit, TABLE_LIMIT)
      ensures ok ==> Base() == old(Base()).(tables := old(Base()).tables + ElemsOf(tables))
    {
      for k := 0 to |tables|
        invariant forall j :: 0 <= j < k ==> LimitOk(tables[j].limit, TABLE_LIMIT)
        invariant Base() == old(Base()).(tables := old(Base()).tables + ElemsOf(tables[..k]))
      {
        if !LimitOk(tables[k].limit, TABLE_LIMIT) {
          return false;
        }
        checker.AddTable(tables[k].elem);
        assert ElemsOf(tables[..k + 1]) == ElemsOf(tables[..k]) + [tables[k].elem];
      }
      assert tables[..|tables|] == tables;
      ok := true;
    }

    method ValidateMemories(memories: seq<Limit>) returns (ok: bool)
      modifies checker
      ensures ok <==> forall k :: 0 <= k < |memories| ==> LimitOk(memories[k], MEMORY_LIMIT)
      ensures ok ==> Base() == old(Base()).(memories := old(Base()).memories + |memories|)
    {
      for k := 0 to |memories|
        invariant forall j :: 0 <= j < k ==> LimitOk(memories[j], MEMORY_LIMIT)
        invariant Base() == old(Base()).(memories := old(Base()).memories + k)
      {
        if !LimitOk(memories[k], MEMORY_LIMIT) {
          return false;
        }
        checker.AddMemory();
      }
      ok := true;
    }

    /** The checker starts over, so what it held before does not matter. */
    method ValidateConst(code: seq<Instr>, t: ValType) returns (ok: bool)
      requires Base().Valid()
      modifies checker
      ensures Base() == old(Base()) && ok == ConstOk(Base(), code, t)
    {
      for k := 0 to |code|
        invariant forall j :: 0 <= j < k ==> IsConst(code[j])
        invariant Base() == old(Base())
      {
        if !IsConst(code[k]) {
          return false;
        }
      }
      checker.Reset(false);
      assert checker.Now().Labels() == [];
      assert [[]] + checker.Now().Labels() == [[]];
      ok := checker.Validate(code, [Known(t)]);
      assert checker.Ctx() == Base().(locals := [], results := [Known(t)]);
    }

    method ValidateBody(f: U32, code: CodeSegment) returns (ok: bool)
      requires Base().Valid() && f < |Base().types|
      modifies checker
      ensures Base() == old(Base()) && ok == BodyOk(Base(), f, code)
    {
      checker.Reset(false);
      var sig := checker.types[f];
      AddLocals(sig.take);
      for k := 0 to |code.locals|
        invariant Base() == old(Base()) && checker.results == [] && checker.ctrlStack == [] && checker.valStack == []
        invariant checker.locals == sig.take + Expanded(code.locals[..k])
      {
        var (count, t) := code.locals[k];
        AddLocals(seq(count, _ => Known(t)));
        assert code.locals[..k + 1][..k] == code.locals[..k];
        assert Expanded(code.locals[..k + 1]) == Expanded(code.locals[..k]) + seq(count, _ => Known(t));
      }
      assert code.locals[..|code.locals|] == code.locals;
      assert [[]] + checker.Now().Labels() == [[]];
      ok := checker.Validate(code.body, sig.put);
      assert checker.Ctx() == Base().(locals := sig.take + Expanded(code.locals), results := sig.put);
    }

    method AddLocals(ts: seq<VType>)
      modifies checker`locals
      ensures checker.locals == old(checker.locals) + ts
    {
      for k := 0 to |ts|
        invariant checker.locals == old(checker.locals) + ts[..k]
      {
        checker.AddLocal(ts[k]);
        assert ts[..k + 1] == ts[..k] + [ts[k]];
      }
      assert ts[..|ts|] == ts;
    }

    method ValidateGlobals(gs: seq<GlobalSegment>) returns (ok: bool)
      requires Base().Valid()
      modifies checker
      ensures ok <==> GlobalsOk(old(Base()), gs)
      ensures ok ==> Base() == old(Base()).(globals := old(Base()).globals + GlobalsOf(gs))
    {
      hide ConstOk;
      ghost var c := Base();
      for k := 0 to |gs|
        invariant Base() == c.(globals := c.globals + GlobalsOf(gs[..k]))
        invariant forall j :: 0 <= j < k ==>
              ConstOk(c.(globals := c.globals + GlobalsOf(gs[..j])), gs[j].init, gs[j].decl.t)
      {
        ok := ValidateConst(gs[k].init, gs[k].decl.t);
        if !ok {
          return;
        }
        checker.AddGlobal(TypeOf(gs[k].decl), false);
        assert GlobalsOf(gs[..k + 1]) == GlobalsOf(gs[..k]) + [TypeOf(gs[k].decl)];
      }
      assert gs[..|gs|] == gs;
      ok := true;
    }

    method ValidateFunctions(fs: seq<U32>, code: seq<CodeSegment>) returns (ok: bool)
      requires Base().Valid()
      modifies checker
      ensures ok ==> Base() == old(Base()).(funcs := old(Base()).funcs + fs)
      ensures ok <==>
        && FuncTypesOk(|old(Base()).types|, fs)
        && var c := old(Base()).(funcs := old(Base()).funcs + fs);
        && BodiesOk(c, fs, code)
    {
      hide BodyOk;
      if |fs| != |code| {
        return false;
      }
      ghost var c := Base();
      for k := 0 to |fs|
        invariant Base() == c.(funcs := c.funcs + fs[..k]) && FuncTypesOk(|c.types|, fs[..k])
      {
        if fs[k] >= |checker.types| {
          return false;
        }
        checker.AddFunc(fs[k]);
        assert fs[..k + 1] == fs[..k] + [fs[k]];
      }
      assert fs[..|fs|] == fs;
      ghost var d := Base();
      for k := 0 to |fs|
        invariant Base() == d && forall j :: 0 <= j < k ==> BodyOk(d, fs[j], code[j])
      {
        ok := ValidateBody(fs[k], code[k]);
        if !ok {
          return;
        }
      }
      ok := true;
    }

    method ValidateElements(es: seq<ElementSegment>) returns (ok: bool)
      requires Base().Valid()
      modifies checker
      ensures Base() == old(Base())
      ensures ok <==> forall k :: 0 <= k < |es| ==> ElementOk(old(Base()), es[k])
    {
      hide ConstOk;
      for k := 0 to |es|
        invariant Base() == old(Base()) && forall j :: 0 <= j < k ==> ElementOk(Base(), es[j])
      {
        var e := es[k];
        if e.table >= |checker.tables| || checker.tables[e.table] != FUNC_REF {
          return false;
        }
        for n := 0 to |e.funcs|
          invariant Base() == old(Base()) && forall j :: 0 <= j < n ==> e.funcs[j] < |Base().funcs|
        {
          if e.funcs[n] >= |checker.funcs| {
            return false;
          }
        }
        ok := ValidateConst(e.offset, I32);
        if !ok {
          return;
        }
      }
      ok := true;
    }

    method ValidateData(ds: seq<DataSegment>) returns (ok: bool)
      requires Base().Valid()
      modifies checker
      ensures Base() == old(Base())
      ensures ok <==> forall k :: 0 <= k < |ds| ==> DataOk(old(Base()), ds[k])
    {
      hide ConstOk;
      for k := 0 to |ds|
        invariant Base() == old(Base()) && forall j :: 0 <= j < k ==> DataOk(Base(), ds[j])
      {
        if ds[k].memory >= |checker.mems| {
          return false;
        }
        ok := ValidateConst(ds[k].offset, I32);
        if !ok {
          return;
        }
      }
      ok := true;
    }

    method ValidateExports(es: seq<Export>) returns (ok: bool)
      ensures ok == ExportsOk(Base(), es)
    {
      var names: set<string> := {};
      for k := 0 to |es|
        invariant forall x :: x in names <==> exists j :: 0 <= j < k && es[j].name == x
        invariant ExportsOk(Base(), es[..k])
      {
        if es[k].name == "" || es[k].name in names {
          return false;
        }
        names := names + {es[k].name};
        if !ExportOk(Base(), es[k]) {
          return false;
        }
        assert es[..k + 1] == es[..k] + [es[k]];
      }
      assert es[..|es|] == es;
      ok := true;
    }

    /** Whatever was validated before, accepted or refused, the answer is the
        verdict on this module. */
    method Validate(m: Module) returns (ok: bool)
      modifies checker
      ensures ok == Accepted(m)
    {
      hide ImportOk, LimitOk, GlobalsOk, BodiesOk, ElementOk, DataOk, StartOk, ExportsOk, WithImports, ElemsOf,
           GlobalsOf;
      checker.Reset(true);
      AddTypes(m.types);
      assert Base() == Context(SigsOf(m.types), [], [], 0, [], [], []);
      ok := ValidateImports(m.imports);
      if !ok {
        return;
      }
      ok := ValidateTables(m.tables);
      if !ok {
        return;
      }
      ok := ValidateMemories(m.memories);
      if !ok {
        return;
      }
      DeclaredValid(m);
      assert Base() == Declared(m);
      ok := ValidateGlobals(m.globals);
      if !ok {
        return;
      }
      if m.funcs.Some? != m.code.Some? {
        return false;
      }
      if m.funcs.Some? {
        ok := ValidateFunctions(m.funcs.value, m.code.value);
        if !ok {
          return;
        }
      }
      FullValid(m);
      assert Base() == FullContext(m);
      ok := ValidateRest(m);
    }

    method ValidateRest(m: Module) returns (ok: bool)
      requires Base().Valid()
      modifies checker
      ensures var c := old(Base());
              ok <==> && (forall k :: 0 <= k < |m.elements| ==> ElementOk(c, m.elements[k]))
                      && (forall k :: 0 <= k < |m.data| ==> DataOk(c, m.data[k]))
                      && (m.start.Some? ==> StartOk(c, m.start.value))
                      && ExportsOk(c, m.exports) && |c.tables| <= 1 && c.memories <= 1
    {
      hide ElementOk, DataOk, ExportsOk;
      ok := ValidateElements(m.elements);
      if !ok {
        return;
      }
      ok := ValidateData(m.data);
      if !ok {
        return;
      }
      if m.start.Some? {
        var f := m.start.value;
        if f >= |checker.funcs| {
          return false;
        }
        var t := checker.types[checker.funcs[f]];
        if |t.take| != 0 || |t.put| != 0 {
          return false;
        }
      }
      ok := ValidateExports(m.exports);
      if !ok {
        return;
      }
      ok := |checker.mems| <= 1 && |checker.tables| <= 1;
    }

    method AddTypes(types: seq<Sig<ValType>>)
      modifies checker`types
      ensures checker.types == old(checker.types) + SigsOf(types)
    {
      for k := 0 to |types|
        invariant checker.types == old(checker.types) + SigsOf(types)[..k]
      {
        checker.AddType(Sig(K(types[k].take), K(types[k].put)));
      }
    }
  }
}
