/** The loading loops of the instruction nodes, driving the file manager: each one
    computes what the loader function says of the bytes that are left. */
module InstrLoader {
  import opened Wasm
  import opened Leb128
  import opened Loader
  import opened FileMgr

  datatype Loaded<+T> = Ok(value: T) | Err(e: Error)

  /** `r`, from position `from` on `m`, is what `spec` asks for. */
  predicate Meets<T(==)>(r: Loaded<T>, spec: Read<T>, m: FileMgrVector, from: nat)
    reads m
  {
    && m.Valid()
    && match spec
       case Got(v, n) => r == Ok(v) && m.pos == from + n
       case Failed(e) => r == Err(e)
       case Overlong => false
  }

  method LoadU32(m: FileMgrVector) returns (r: Loaded<U32>)
    requires m.Valid() && !ReadU32(m.Left()).Overlong?
    modifies m`pos, m`status
    ensures Meets(r, ReadU32(old(m.Left())), m, old(m.pos))
  {
    var v := m.ReadUnsignedNumber(32);
    Pow2Words();
    r := if v.Some? then Ok(v.value) else Err(EndOfFile);
  }

  // ----- instructions without nested instructions -----

  method LoadCallIndirectArgs(m: FileMgrVector) returns (r: Loaded<Instr>)
    requires m.Valid() && !LoadCallIndirect(m.Left()).Overlong?
    modifies m`pos, m`status
    ensures Meets(r, LoadCallIndirect(old(m.Left())), m, old(m.pos))
  {
    hide ReadU32;
    ghost var s := m.Left();
    var v := LoadU32(m);
    if v.Err? {
      return Err(v.e);
    }
    assert m.Left() == s[m.pos - old(m.pos)..];
    var b := m.ReadByte();
    if b.None? {
      return Err(EndOfFile);
    } else if b.value != 0 {
      return Err(InvalidGrammar);
    }
    r := Ok(CallIndirect(v.value));
  }

  method LoadMemoryArgs(m: FileMgrVector, op: MemCode) returns (r: Loaded<Instr>)
    requires m.Valid() && !LoadMemory(op, m.Left()).Overlong?
    modifies m`pos, m`status
    ensures Meets(r, LoadMemory(op, old(m.Left())), m, old(m.pos))
  {
    hide ReadU32;
    ghost var s := m.Left();
    ghost var skip := 0;
    if op == MEMORY_SIZE || op == MEMORY_GROW {
      var b := m.ReadByte();
      if b.None? {
        return Err(EndOfFile);
      } else if b.value == 0 {
        return Ok(Memory(op, 0, 0));
      }
      skip := 1;
    }
    assert m.Left() == s[skip..];
    var align := LoadU32(m);
    if align.Err? {
      return Err(align.e);
    }
    assert m.Left() == s[m.pos - old(m.pos)..];
    var offset := LoadU32(m);
    if offset.Err? {
      return Err(offset.e);
    }
    r := Ok(Memory(op, align.value, offset.value));
  }

  method LoadConstArgs(m: FileMgrVector, op: Byte) returns (r: Loaded<Instr>)
    requires 0x41 <= op <= 0x44 && m.Valid() && !LoadConst(op, m.Left()).Overlong?
    modifies m`pos, m`status
    ensures Meets(r, LoadConst(op, old(m.Left())), m, old(m.pos))
  {
    hide ReadSigned, ReadFixed, Pow2;
    Pow2Words();
    if op == 0x41 {
      var v := m.ReadSignedNumber(32);
      r := if v.Some? then Ok(Const(I32Val(v.value))) else Err(EndOfFile);
    } else if op == 0x42 {
      var v := m.ReadSignedNumber(64);
      r := if v.Some? then Ok(Const(I64Val(v.value))) else Err(EndOfFile);
    } else if op == 0x43 {
      var v := m.ReadFloat(4);
      r := if v.Some? then Ok(Const(F32Val(v.value))) else Err(EndOfFile);
    } else {
      var v := m.ReadFloat(8);
      r := if v.Some? then Ok(Const(F64Val(v.value))) else Err(EndOfFile);
    }
  }

  /** What a list loader returns when `done`, of `n` bytes, is already read. */
  function After<T>(done: seq<T>, n: nat, r: Read<seq<T>>): Read<seq<T>> {
    match r
    case Got(more, k) => Got(done + more, n + k)
    case Failed(e) => Failed(e)
    case Overlong => Overlong
  }

  lemma AfterNothing<T>(r: Read<seq<T>>)
    ensures After([], 0, r) == r
  {
    if r.Got? {
      assert [] + r.value == r.value;
    }
  }

  /** Reading one more item moves it to the part that is done. */
  lemma AfterOne<T>(done: seq<T>, n: nat, x: T, k: nat, r: Read<seq<T>>)
    ensures After(done, n, After([x], k, r)) == After(done + [x], n + k, r)
  {
    if r.Got? {
      assert done + ([x] + r.value) == done + [x] + r.value;
    }
  }

  method LoadLabelTable(m: FileMgrVector, count: nat) returns (r: Loaded<seq<U32>>)
    requires m.Valid() && !LoadLabels(m.Left(), count).Overlong?
    modifies m`pos, m`status
    ensures Meets(r, LoadLabels(old(m.Left()), count), m, old(m.pos))
  {
    hide ReadU32;
    ghost var spec := LoadLabels(m.Left(), count);
    var table: seq<U32> := [];
    AfterNothing(spec);
    for i := 0 to count
      invariant m.Valid() && old(m.pos) <= m.pos && m.code == old(m.code)
      invariant spec == After(table, m.pos - old(m.pos), LoadLabels(m.Left(), count - i))
    {
      ghost var s, n := m.Left(), m.pos - old(m.pos);
      var v := LoadU32(m);
      if v.Err? {
        return Err(v.e);
      }
      ghost var k := m.pos - old(m.pos) - n;
      assert m.Left() == s[k..];
      AfterOne(table, n, v.value, k, LoadLabels(m.Left(), count - i - 1));
      table := table + [v.value];
    }
    assert table + [] == table;
    r := Ok(table);
  }

  method LoadBrTableArgs(m: FileMgrVector) returns (r: Loaded<Instr>)
    requires m.Valid() && !LoadBrTable(m.Left()).Overlong?
    modifies m`pos, m`status
    ensures Meets(r, LoadBrTable(old(m.Left())), m, old(m.pos))
  {
    hide ReadU32, LoadLabels;
    ghost var s := m.Left();
    var count := LoadU32(m);
    if count.Err? {
      return Err(count.e);
    }
    assert m.Left() == s[m.pos - old(m.pos)..];
    var table := LoadLabelTable(m, count.value);
    if table.Err? {
      return Err(table.e);
    }
    assert m.Left() == s[m.pos - old(m.pos)..];
    var dflt := LoadU32(m);
    if dflt.Err? {
      return Err(dflt.e);
    }
    r := Ok(BrTable(table.value, dflt.value));
  }

  method LoadPlainArgs(m: FileMgrVector, op: Byte) returns (r: Loaded<Instr>)
    requires m.Valid() && !LoadPlain(op, m.Left()).Overlong?
    modifies m`pos, m`status
    ensures Meets(r, LoadPlain(op, old(m.Left())), m, old(m.pos))
  {
    hide ReadU32, LoadBrTable, LoadCallIndirect, LoadMemory, LoadConst;
    if IsIndexed(op) {
      var v := LoadU32(m);
      r := if v.Ok? then Ok(Indexed(op, v.value)) else Err(v.e);
    } else if op == 0x0E {
      r := LoadBrTableArgs(m);
    } else if op == 0x11 {
      r := LoadCallIndirectArgs(m);
    } else if op == 0x1A {
      r := Ok(Drop);
    } else if op == 0x1B {
      r := Ok(Select);
    } else if 0x28 <= op <= 0x40 {
      r := LoadMemoryArgs(m, op);
    } else if 0x41 <= op <= 0x44 {
      r := LoadConstArgs(m, op);
    } else if 0x45 <= op <= 0xBF {
      r := Ok(Numeric(op));
    } else {
      r := Err(InvalidGrammar);
    }
  }

  // ----- nested instructions -----

  /** Loading the contents of the node made for opcode `op`. */
  method LoadNodeArgs(m: FileMgrVector, op: Byte) returns (r: Loaded<Instr>)
    requires m.Valid() && !LoadNode(op, m.Left()).Overlong?
    modifies m`pos, m`status
    ensures Meets(r, LoadNode(op, old(m.Left())), m, old(m.pos))
    decreases |m.code| - m.pos, 1
  {
    hide LoadBody, LoadArms, LoadPlain;
    ghost var s := m.Left();
    if op == 0x00 {
      r := Ok(Unreachable);
    } else if op == 0x01 {
      r := Ok(Nop);
    } else if op == 0x0F {
      r := Ok(Return);
    } else if op == 0x02 || op == 0x03 || op == 0x04 {
      var b := m.ReadByte();
      if b.None? {
        return Err(EndOfFile);
      }
      var bt := BlockTypeOf(b.value);
      if bt.None? {
        return Err(InvalidGrammar);
      }
      assert m.Left() == s[1..];
      if op == 0x04 {
        var arms := LoadBothArms(m);
        r := if arms.Ok? then Ok(If(bt.value, arms.value.thn, arms.value.els)) else Err(arms.e);
      } else {
        var body := LoadUntilEnd(m);
        r := if body.Err? then Err(body.e)
             else if op == 0x02 then Ok(Block(bt.value, body.value)) else Ok(Loop(bt.value, body.value));
      }
    } else {
      r := LoadPlainArgs(m, op);
    }
  }

  /** What one turn of the loop finds at the front of `s`. */
  lemma BodyTurn(done: seq<Instr>, n: nat, s: seq<Byte>)
    ensures s == [] ==> After(done, n, LoadBody(s)) == Failed(EndOfFile)
    ensures s != [] && s[0] == END ==> After(done, n, LoadBody(s)) == Got(done, n + 1)
    ensures s != [] && s[0] != END ==>
              var node := LoadNode(s[0], s[1..]);
              && (node.Failed? ==> After(done, n, LoadBody(s)) == Failed(node.e))
              && (node.Overlong? ==> After(done, n, LoadBody(s)) == Overlong)
              && (node.Got? ==>
                    After(done, n, LoadBody(s))
                    == After(done + [node.value], n + node.n + 1, LoadBody(s[node.n + 1..])))
  {
    hide LoadNode;
    assert done + [] == done;
    if s != [] && s[0] != END && LoadNode(s[0], s[1..]).Got? {
      var node := LoadNode(s[0], s[1..]);
      var rest := LoadBody(s[node.n + 1..]);
      assert LoadBody(s) == After([node.value], node.n + 1, rest);
      AfterOne(done, n, node.value, node.n + 1, rest);
    }
  }

  /** Nodes up to End: the body of a block or a loop, and a whole expression. */
  method LoadUntilEnd(m: FileMgrVector) returns (r: Loaded<seq<Instr>>)
    requires m.Valid() && !LoadBody(m.Left()).Overlong?
    modifies m`pos, m`status
    ensures Meets(r, LoadBody(old(m.Left())), m, old(m.pos))
    decreases |m.code| - m.pos, 0
  {
    hide LoadNode, LoadBody, After;
    ghost var spec := LoadBody(m.Left());
    var body: seq<Instr> := [];
    AfterNothing(spec);
    while true
      invariant m.Valid() && old(m.pos) <= m.pos && m.code == old(m.code)
      invariant spec == After(body, m.pos - old(m.pos), LoadBody(m.Left()))
      decreases |m.code| - m.pos
    {
      ghost var s, n := m.Left(), m.pos - old(m.pos);
      BodyTurn(body, n, s);
      var b := m.ReadByte();
      if b.None? {
        return Err(EndOfFile);
      } else if b.value == END {
        return Ok(body);
      }
      assert m.Left() == s[1..];
      var i := LoadNodeArgs(m, b.value);
      if i.Err? {
        return Err(i.e);
      }
      ghost var k := m.pos - old(m.pos) - n;
      assert m.Left() == s[k..];
      body := body + [i.value];
    }
  }

  /** What the arms come to when `done`, of `n` bytes, is already read. */
  function ArmsAfter(done: Arms, n: nat, r: Read<Arms>): Read<Arms> {
    match r
    case Got(more, k) => Got(Arms(done.thn + more.thn, done.els + more.els), n + k)
    case Failed(e) => Failed(e)
    case Overlong => Overlong
  }

  function WithNode(a: Arms, inElse: bool, i: Instr): Arms {
    if inElse then a.(els := a.els + [i]) else a.(thn := a.thn + [i])
  }

  lemma ArmsAfterNothing(r: Read<Arms>)
    ensures ArmsAfter(Arms([], []), 0, r) == r
  {
    if r.Got? {
      assert [] + r.value.thn == r.value.thn && [] + r.value.els == r.value.els;
    }
  }

  /** The codes that end the loop or switch the arm. */
  lemma ArmsMark(done: Arms, n: nat, inElse: bool, s: seq<Byte>)
    ensures s == [] ==> ArmsAfter(done, n, LoadArms(s, inElse)) == Failed(EndOfFile)
    ensures s != [] && s[0] == END ==> ArmsAfter(done, n, LoadArms(s, inElse)) == Got(done, n + 1)
    ensures s != [] && s[0] == ELSE ==>
              ArmsAfter(done, n, LoadArms(s, inElse)) == ArmsAfter(done, n + 1, LoadArms(s[1..], true))
  {
    hide LoadNode;
    assert done.thn + [] == done.thn && done.els + [] == done.els;
  }

  /** A node followed by more. */
  lemma ArmsAfterOne(done: Arms, n: nat, inElse: bool, s: seq<Byte>)
    requires s != [] && s[0] != END && s[0] != ELSE
    ensures var node := LoadNode(s[0], s[1..]);
            && (node.Failed? ==> LoadArms(s, inElse) == Failed(node.e))
            && (node.Overlong? ==> LoadArms(s, inElse) == Overlong)
            && (node.Got? ==>
                  ArmsAfter(done, n, LoadArms(s, inElse))
                  == ArmsAfter(WithNode(done, inElse, node.value), n + node.n + 1, LoadArms(s[node.n + 1..], inElse)))
  {
    hide LoadNode;
    var node := LoadNode(s[0], s[1..]);
    if node.Got? {
      var i := node.value;
      var r := LoadArms(s[node.n + 1..], inElse);
      if r.Got? {
        var a := r.value;
        assert done.thn + ([i] + a.thn) == done.thn + [i] + a.thn;
        assert done.els + ([i] + a.els) == done.els + [i] + a.els;
      }
    }
  }

  /** The two arms of an `if`, up to End. */
  method LoadBothArms(m: FileMgrVector) returns (r: Loaded<Arms>)
    requires m.Valid() && !LoadArms(m.Left(), false).Overlong?
    modifies m`pos, m`status
    ensures Meets(r, LoadArms(old(m.Left()), false), m, old(m.pos))
    decreases |m.code| - m.pos, 0
  {
    hide LoadNode, LoadArms, WithNode;
    ghost var spec := LoadArms(m.Left(), false);
    var arms, inElse := Arms([], []), false;
    ArmsAfterNothing(spec);
    while true
      invariant m.Valid() && old(m.pos) <= m.pos && m.code == old(m.code)
      invariant spec == ArmsAfter(arms, m.pos - old(m.pos), LoadArms(m.Left(), inElse))
      decreases |m.code| - m.pos
    {
      ghost var s, n := m.Left(), m.pos - old(m.pos);
      ArmsMark(arms, n, inElse, s);
      var b := m.ReadByte();
      assert b.Some? ==> m.Left() == s[1..];
      if b.None? {
        return Err(EndOfFile);
      } else if b.value == END {
        return Ok(arms);
      } else if b.value == ELSE {
        inElse := true;
      } else {
        ArmsAfterOne(arms, n, inElse, s);
        var i := LoadNodeArgs(m, b.value);
        if i.Err? {
          return Err(i.e);
        }
        ghost var k := m.pos - old(m.pos) - n - 1;
        assert m.Left() == s[k + 1..];
        arms := WithNode(arms, inElse, i.value);
      }
    }
  }
}
