/** Loading depends only on the bytes it consumes. */
module Locality {
  import opened Wasm
  import opened Leb128
  import opened Loader

  /** `s` and `t` begin with the same `n` bytes. */
  predicate Agree(s: seq<Byte>, t: seq<Byte>, n: nat) {
    n <= |s| && n <= |t| && s[..n] == t[..n]
  }

  lemma AgreeDrop(s: seq<Byte>, t: seq<Byte>, n: nat, k: nat)
    requires Agree(s, t, n) && k <= n
    ensures Agree(s, t, k) && Agree(s[k..], t[k..], n - k)
    ensures k < n ==> s[k] == t[k]
  {
    assert s[..k] == s[..n][..k] && t[..k] == t[..n][..k];
    assert s[k..][..n - k] == s[..n][k..] && t[k..][..n - k] == t[..n][k..];
    if k < n {
      assert s[k] == s[..n][k] && t[k] == t[..n][k];
    }
  }

  lemma RunLocal(s: seq<Byte>, t: seq<Byte>)
    requires RunLength(s).Some? && Agree(s, t, RunLength(s).value)
    ensures RunLength(t) == RunLength(s) && s[..RunLength(s).value] == t[..RunLength(s).value]
  {
    hide RunLength;
    var n := RunLength(s).value;
    RunLengthOfRun(s[..n], t[n..]);
    assert s[..n] + t[n..] == t;
  }

  lemma U32Local(s: seq<Byte>, t: seq<Byte>)
    requires ReadU32(s).Got? && Agree(s, t, ReadU32(s).n)
    ensures ReadU32(t) == ReadU32(s)
  {
    hide RunLength, UnsignedOf;
    RunLocal(s, t);
  }

  lemma ConstLocal(op: Byte, s: seq<Byte>, t: seq<Byte>)
    requires 0x41 <= op <= 0x44 && LoadConst(op, s).Got? && Agree(s, t, LoadConst(op, s).n)
    ensures LoadConst(op, t) == LoadConst(op, s)
  {
    hide RunLength, SignedOf, Bytes;
    if op <= 0x42 {
      RunLocal(s, t);
    }
  }

  lemma {:induction false} LabelsLocal(s: seq<Byte>, t: seq<Byte>, count: nat)
    requires LoadLabels(s, count).Got? && Agree(s, t, LoadLabels(s, count).n)
    ensures LoadLabels(t, count) == LoadLabels(s, count)
    decreases count
  {
    hide ReadU32;
    if count > 0 {
      var n := ReadU32(s).n;
      AgreeDrop(s, t, LoadLabels(s, count).n, n);
      U32Local(s, t);
      LabelsLocal(s[n..], t[n..], count - 1);
    }
  }

  lemma BrTableLocal(s: seq<Byte>, t: seq<Byte>)
    requires LoadBrTable(s).Got? && Agree(s, t, LoadBrTable(s).n)
    ensures LoadBrTable(t) == LoadBrTable(s)
  {
    hide ReadU32, LoadLabels;
    var total := LoadBrTable(s).n;
    var n := ReadU32(s).n;
    AgreeDrop(s, t, total, n);
    U32Local(s, t);
    var count := ReadU32(s).value;
    var m := LoadLabels(s[n..], count).n;
    AgreeDrop(s[n..], t[n..], total - n, m);
    LabelsLocal(s[n..], t[n..], count);
    AgreeDrop(s, t, total, n + m);
    U32Local(s[n + m..], t[n + m..]);
  }

  lemma MemArgLocal(op: MemCode, s: seq<Byte>, t: seq<Byte>, skip: nat)
    requires skip <= |s| && LoadMemArg(op, s, skip).Got? && Agree(s, t, LoadMemArg(op, s, skip).n)
    ensures LoadMemArg(op, t, skip) == LoadMemArg(op, s, skip)
  {
    hide ReadU32;
    var total := LoadMemArg(op, s, skip).n;
    var n := ReadU32(s[skip..]).n;
    AgreeDrop(s, t, total, skip);
    AgreeDrop(s[skip..], t[skip..], total - skip, n);
    U32Local(s[skip..], t[skip..]);
    AgreeDrop(s, t, total, skip + n);
    U32Local(s[skip + n..], t[skip + n..]);
  }

  lemma CallIndirectLocal(s: seq<Byte>, t: seq<Byte>)
    requires LoadCallIndirect(s).Got? && Agree(s, t, LoadCallIndirect(s).n)
    ensures LoadCallIndirect(t) == LoadCallIndirect(s)
  {
    hide ReadU32;
    AgreeDrop(s, t, LoadCallIndirect(s).n, ReadU32(s).n);
    U32Local(s, t);
  }

  lemma PlainLocal(op: Byte, s: seq<Byte>, t: seq<Byte>)
    requires LoadPlain(op, s).Got? && Agree(s, t, LoadPlain(op, s).n)
    ensures LoadPlain(op, t) == LoadPlain(op, s)
  {
    hide ReadU32, LoadBrTable, LoadCallIndirect, LoadMemArg, LoadConst;
    if IsIndexed(op) {
      U32Local(s, t);
    } else if op == 0x0E {
      BrTableLocal(s, t);
    } else if op == 0x11 {
      CallIndirectLocal(s, t);
    } else if 0x28 <= op <= 0x40 {
      MemoryLocal(op, s, t);
    } else if 0x41 <= op <= 0x44 {
      ConstLocal(op, s, t);
    }
  }

  lemma MemoryLocal(op: MemCode, s: seq<Byte>, t: seq<Byte>)
    requires LoadMemory(op, s).Got? && Agree(s, t, LoadMemory(op, s).n)
    ensures LoadMemory(op, t) == LoadMemory(op, s)
  {
    hide LoadMemArg;
    if op == MEMORY_SIZE || op == MEMORY_GROW {
      if s[0] != 0 {
        MemArgAdvances(op, s);
        AgreeDrop(s, t, LoadMemory(op, s).n, 0);
        MemArgLocal(op, s, t, 1);
      } else {
        AgreeDrop(s, t, 1, 0);
      }
    } else {
      MemArgLocal(op, s, t, 0);
    }
  }

  lemma MemArgAdvances(op: MemCode, s: seq<Byte>)
    requires s != [] && LoadMemArg(op, s, 1).Got?
    ensures LoadMemArg(op, s, 1).n > 1
  {
  }

  /** The result and the number of bytes consumed are the same on every byte
      string that starts with the consumed bytes. */
  lemma {:induction false} NodeLocal(op: Byte, s: seq<Byte>, t: seq<Byte>)
    requires LoadNode(op, s).Got? && Agree(s, t, LoadNode(op, s).n)
    ensures LoadNode(op, t) == LoadNode(op, s)
    decreases |s|, 1
  {
    hide LoadPlain, LoadBody, LoadArms, BlockTypeOf;
    var n := LoadNode(op, s).n;
    if op == 0x00 || op == 0x01 || op == 0x0F {
    } else if op == 0x02 || op == 0x03 {
      AgreeDrop(s, t, n, 0);
      AgreeDrop(s, t, n, 1);
      BodyLocal(s[1..], t[1..]);
    } else if op == 0x04 {
      AgreeDrop(s, t, n, 0);
      AgreeDrop(s, t, n, 1);
      ArmsLocal(s[1..], t[1..], false);
    } else {
      PlainLocal(op, s, t);
    }
  }

  lemma {:induction false} BodyLocal(s: seq<Byte>, t: seq<Byte>)
    requires LoadBody(s).Got? && Agree(s, t, LoadBody(s).n)
    ensures LoadBody(t) == LoadBody(s)
    decreases |s|, 0
  {
    hide LoadNode;
    var total := LoadBody(s).n;
    AgreeDrop(s, t, total, 0);
    if s[0] != END {
      var n := LoadNode(s[0], s[1..]).n;
      AgreeDrop(s, t, total, 1);
      AgreeDrop(s[1..], t[1..], total - 1, n);
      NodeLocal(s[0], s[1..], t[1..]);
      AgreeDrop(s, t, total, n + 1);
      BodyLocal(s[n + 1..], t[n + 1..]);
    }
  }

  /** The arms after a first node. */
  function AfterNode(i: Instr, n: nat, inElse: bool, r: Read<Arms>): Read<Arms> {
    match r
    case Got(a, m) => Got(if inElse then Arms(a.thn, [i] + a.els) else Arms([i] + a.thn, a.els), n + 1 + m)
    case Failed(e) => Failed(e)
    case Overlong => Overlong
  }

  lemma ArmsOfNode(s: seq<Byte>, inElse: bool)
    requires s != [] && s[0] != END && s[0] != ELSE && LoadNode(s[0], s[1..]).Got?
    ensures var r := LoadNode(s[0], s[1..]);
            LoadArms(s, inElse) == AfterNode(r.value, r.n, inElse, LoadArms(s[r.n + 1..], inElse))
  {
    hide LoadNode;
  }

  lemma ArmsOfElse(s: seq<Byte>, inElse: bool)
    requires s != [] && (s[0] == END || s[0] == ELSE)
    ensures s[0] == END ==> LoadArms(s, inElse) == Got(Arms([], []), 1)
    ensures s[0] == ELSE && LoadArms(s[1..], true).Got? ==>
      LoadArms(s, inElse) == Got(LoadArms(s[1..], true).value, LoadArms(s[1..], true).n + 1)
    ensures s[0] == ELSE ==> (LoadArms(s, inElse).Got? <==> LoadArms(s[1..], true).Got?)
  {
  }

  lemma ArmsBegin(s: seq<Byte>, inElse: bool)
    requires LoadArms(s, inElse).Got?
    ensures s != [] && (s[0] == END || s[0] == ELSE || LoadNode(s[0], s[1..]).Got?)
  {
    hide LoadNode;
  }

  lemma {:induction false} ArmsLocal(s: seq<Byte>, t: seq<Byte>, inElse: bool)
    requires LoadArms(s, inElse).Got? && Agree(s, t, LoadArms(s, inElse).n)
    ensures LoadArms(t, inElse) == LoadArms(s, inElse)
    decreases |s|, 0
  {
    hide LoadNode, LoadArms;
    var total := LoadArms(s, inElse).n;
    ArmsBegin(s, inElse);
    AgreeDrop(s, t, total, 0);
    AgreeDrop(s, t, total, 1);
    if s[0] == ELSE || s[0] == END {
      ArmsOfElse(s, inElse);
      ArmsOfElse(t, inElse);
      if s[0] == ELSE {
        ArmsLocal(s[1..], t[1..], true);
      }
    } else {
      var n := LoadNode(s[0], s[1..]).n;
      ArmsOfNode(s, inElse);
      AgreeDrop(s[1..], t[1..], total - 1, n);
      NodeLocal(s[0], s[1..], t[1..]);
      AgreeDrop(s, t, total, n + 1);
      ArmsLocal(s[n + 1..], t[n + 1..], inElse);
      ArmsOfNode(t, inElse);
    }
  }
}
