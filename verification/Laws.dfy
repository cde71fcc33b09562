/** What each operand instruction does to the machine's stacks, on every state, by the
    shape of the stack it finds. */
module Laws {
  import opened Wasm
  import opened Machine

  function Vals(c: Config, vals: seq<Value>): Config {
    c.(vals := vals)
  }

  lemma Tops(vs: seq<Value>, a: Value)
    ensures Last(vs + [a]) == a && Front(vs + [a]) == vs
  {
  }

  /** The first operand for a non-zero condition, the second one for zero. */
  lemma SelectLaw(p: Program, c: Config, vs: seq<Value>, a: Value, b: Value, k: U32, o: Oracle)
    requires p.Valid()
    ensures Exec(p, Vals(c, vs + [a, b, I32Val(k)]), Select, o) == Next(Vals(c, vs + [if k != 0 then a else b]))
  {
    assert vs + [a, b, I32Val(k)] == vs + [a] + [b] + [I32Val(k)];
    Tops(vs + [a] + [b], I32Val(k));
    Tops(vs + [a], b);
    Tops(vs, a);
  }

  lemma DropLaw(p: Program, c: Config, vs: seq<Value>, a: Value, o: Oracle)
    requires p.Valid()
    ensures Exec(p, Vals(c, vs + [a]), Drop, o) == Next(Vals(c, vs))
  {
    Tops(vs, a);
  }

  /** global.get pushes its slot and changes nothing else. */
  lemma GlobalGetLaw(p: Program, c: Config, k: U32, o: Oracle)
    requires p.Valid()
    ensures Exec(p, c, GlobalGet(k), o)
         == if k < |c.globals| then Next(Vals(c, c.vals + [c.globals[k]])) else Stuck
  {
  }

  /** global.set moves the top value to its slot and leaves every other slot. */
  lemma GlobalSetLaw(p: Program, c: Config, vs: seq<Value>, a: Value, k: U32, o: Oracle)
    requires p.Valid() && k < |c.globals|
    ensures var r := Exec(p, Vals(c, vs + [a]), GlobalSet(k), o);
            && r.Next? && r.cfg == Vals(c, vs).(globals := r.cfg.globals)
            && |r.cfg.globals| == |c.globals| && r.cfg.globals[k] == a
            && forall j :: 0 <= j < |c.globals| && j != k ==> r.cfg.globals[j] == c.globals[j]
  {
    Tops(vs, a);
  }

  /** local.set moves the top value to its slot above the frame's base; local.tee
      leaves it on top as well; no other value changes. */
  lemma LocalSetLaw(p: Program, c: Config, vs: seq<Value>, a: Value, k: U32, o: Oracle)
    requires p.Valid() && c.frames != [] && Last(c.frames).vheight + k < |vs|
    ensures var at, r, t := Last(c.frames).vheight + k, Exec(p, Vals(c, vs + [a]), LocalSet(k), o),
                            Exec(p, Vals(c, vs + [a]), LocalTee(k), o);
            && r.Next? && r.cfg == Vals(c, r.cfg.vals) && |r.cfg.vals| == |vs| && r.cfg.vals[at] == a
            && (forall j :: 0 <= j < |vs| && j != at ==> r.cfg.vals[j] == vs[j])
            && t == Next(Vals(c, r.cfg.vals + [a]))
  {
    Tops(vs, a);
    var at := Last(c.frames).vheight + k;
    assert (vs + [a])[at := a] == vs[at := a] + [a];
  }

  lemma LocalGetLaw(p: Program, c: Config, k: U32, o: Oracle)
    requires p.Valid() && c.frames != [] && Last(c.frames).vheight + k < |c.vals|
    ensures Exec(p, c, LocalGet(k), o) == Next(Vals(c, c.vals + [c.vals[Last(c.frames).vheight + k]]))
  {
  }

  /** Operands of other types or too few are never read; otherwise exactly they give
      way to results of the put types, or the instruction traps. */
  lemma ExchangeLaw(c: Config, s: Sig<ValType>, o: Oracle)
    ensures var n, r := |c.vals| - |s.take|, Exchange(c, s, o);
            && (r.Stuck? <==> n < 0 || Types(c.vals[n..]) != s.take)
            && (r.Trap? ==> o.trap)
            && (r.Next? ==>
                  && !o.trap && r.cfg == Vals(c, r.cfg.vals) && |r.cfg.vals| == n + |s.put|
                  && r.cfg.vals[..n] == c.vals[..n] && Types(r.cfg.vals[n..]) == s.put)
  {
    hide Types;
    if Exchange(c, s, o).Next? {
      var n, vs := |c.vals| - |s.take|, MakeValues(s.put, o.bits);
      assert (c.vals[..n] + vs)[n..] == vs;
    }
  }

  /** The slots of a function that was just entered: its arguments in order, then the
      zero of each local's type. */
  lemma EntrySlots(p: Program, c: Config, f: nat, o: Oracle, k: U32)
    requires p.Valid() && f < |p.funcs| && p.funcs[f].Native? && |p.SigOf(f).take| <= |c.vals|
    requires k < |p.SigOf(f).take| + |p.funcs[f].locals|
    ensures var take := |p.SigOf(f).take|;
            var e := EnterFunction(p, c, f, o);
            var v := if k < take then c.vals[|c.vals| - take + k] else Zero(p.funcs[f].locals[k - take]);
            e.Next? && Exec(p, e.cfg, LocalGet(k), o) == Next(Vals(e.cfg, e.cfg.vals + [v]))
  {
    hide Exec;
    var e := EnterFunction(p, c, f, o).cfg;
    assert Last(e.frames).vheight == |c.vals| - |p.SigOf(f).take|;
    LocalGetLaw(p, e, k, o);
  }

  /** br_if is br for a non-zero condition and nothing otherwise. */
  lemma BrIfLaw(p: Program, c: Config, vs: seq<Value>, k: U32, n: U32, o: Oracle)
    requires p.Valid()
    ensures Exec(p, Vals(c, vs + [I32Val(k)]), BrIf(n), o)
         == if k == 0 then Next(Vals(c, vs)) else Exec(p, Vals(c, vs), Br(n), o)
  {
    hide Branch;
    Tops(vs, I32Val(k));
  }

  /** br_table is br to the entry that the operand selects, or to the default. */
  lemma BrTableLaw(p: Program, c: Config, vs: seq<Value>, k: U32, table: LabelVec, n: U32, o: Oracle)
    requires p.Valid()
    ensures Exec(p, Vals(c, vs + [I32Val(k)]), BrTable(table, n), o)
         == Exec(p, Vals(c, vs), Br(if k < |table| then table[k] else n), o)
  {
    hide Branch;
    Tops(vs, I32Val(k));
  }

  /** `if` is the block of the arm that the condition selects; an empty arm is no block. */
  lemma IfLaw(p: Program, c: Config, vs: seq<Value>, k: U32, bt: BlockType, thn: seq<Instr>, els: seq<Instr>, o: Oracle)
    requires p.Valid()
    ensures var arm := if k == 0 then els else thn;
            Exec(p, Vals(c, vs + [I32Val(k)]), If(bt, thn, els), o)
            == if arm == [] then Next(Vals(c, vs)) else Exec(p, Vals(c, vs), Block(bt, arm), o)
  {
    hide EnterBlock;
    Tops(vs, I32Val(k));
  }

  /** call_indirect is call of the table entry that the operand selects; it traps when
      there is none or its type is not the expected one. */
  lemma CallIndirectLaw(p: Program, c: Config, vs: seq<Value>, k: U32, x: U32, o: Oracle)
    requires p.Valid() && x < |p.types|
    ensures var r := Exec(p, Vals(c, vs + [I32Val(k)]), CallIndirect(x), o);
            if k < |p.table| && p.table[k].Some? && p.SigOf(p.table[k].value) == p.types[x]
            then r == EnterFunction(p, Vals(c, vs), p.table[k].value, o)
            else r == Trap
  {
    hide EnterFunction;
    Tops(vs, I32Val(k));
  }
}
