/** The byte-vector file manager and the loading loops that drive it. */
module FileMgr {
  import opened Wasm
  import opened Leb128
  import opened Loader

  class FileMgrVector {
    var code: seq<Byte>
    var pos: nat
    var status: Option<Error>

    constructor (data: seq<Byte>)
      ensures code == data && pos == 0 && Valid()
      ensures status == if data == [] then Some(EndOfFile) else None
    {
      code, pos := data, 0;
      status := if data == [] then Some(EndOfFile) else None;
    }

    /** The position never passes the end of the code. */
    predicate Valid()
      reads this
    {
      pos <= |code|
    }

    function Left(): seq<Byte>
      requires Valid()
      reads this
    {
      code[pos..]
    }

    method ReadByte() returns (b: Option<Byte>)
      requires Valid()
      modifies `pos, `status
      ensures Valid()
      ensures if old(Left()) == [] then b == None && pos == old(pos) && status == Some(EndOfFile)
              else b == Some(old(Left())[0]) && pos == old(pos) + 1 && status == old(status)
    {
      if pos >= |code| {
        status := Some(EndOfFile);
        return None;
      }
      b := Some(code[pos]);
      pos := pos + 1;
    }

    /** The accumulating loop shared by the four LEB128 readers. */
    method ReadRun(bits: nat) returns (ok: bool, result: nat, offset: nat, last: Byte)
      requires Valid() && WordSize(bits) && !ReadUnsigned(Left(), bits).Overlong?
      modifies `pos, `status
      ensures Valid()
      ensures match RunLength(old(Left()))
              case None => !ok && pos == |code| && status == Some(EndOfFile)
              case Some(n) =>
                && ok && pos == old(pos) + n && status == old(status)
                && result == UnsignedOf(old(Left())[..n], bits) && offset == 7 * n && last == old(Left())[n - 1]
    {
      hide Pow2, Or, UnsignedOf, RunLength, ReadUnsigned, Sum, IsRun, Digit;
      ghost var s := Left();
      ghost var n := 0;
      Start(s, bits);
      result, offset, last := 0, 0, 0x80;
      while last >= 0x80
        invariant Valid() && pos == old(pos) + n && n <= |s| && offset == 7 * n && status == old(status)
        invariant result == UnsignedOf(s[..n], bits)
        invariant n == 0 ==> last == 0x80
        invariant n > 0 ==> last == s[n - 1]
        invariant forall k :: 0 <= k < n - 1 ==> More(s[k])
        invariant last >= 0x80 ==> n < MaxRun(bits) || n == |s|
        decreases |s| - n
      {
        if pos >= |code| {
          assert forall k :: 0 <= k < |s| ==> More(s[k]);
          NoRun(s);
          status := Some(EndOfFile);
          ok := false;
          return;
        }
        last := code[pos];
        pos := pos + 1;
        Turn(s, n, bits);
        result := Or(result, last % 0x80 * Pow2(offset) % Pow2(bits));
        offset := offset + 7;
        n := n + 1;
        if last >= 0x80 {
          LongRun(s, n, bits);
        }
      }
      ok := true;
      RunFound(s, n);
    }

    method ReadUnsignedNumber(bits: nat) returns (v: Option<nat>)
      requires Valid() && WordSize(bits) && !ReadUnsigned(Left(), bits).Overlong?
      modifies `pos, `status
      ensures Valid()
      ensures match ReadUnsigned(old(Left()), bits)
              case Got(x, n) => v == Some(x) && pos == old(pos) + n && status == old(status)
              case _ => v == None && pos == |code| && status == Some(EndOfFile)
    {
      var ok, result, _, _ := ReadRun(bits);
      v := if ok then Some(result) else None;
    }

    /** The sign bit of the last byte fills the word above the run. */
    method ReadSignedNumber(bits: nat) returns (v: Option<nat>)
      requires Valid() && WordSize(bits) && !ReadSigned(Left(), bits).Overlong?
      modifies `pos, `status
      ensures Valid()
      ensures match ReadSigned(old(Left()), bits)
              case Got(x, n) => v == Some(x) && pos == old(pos) + n && status == old(status)
              case _ => v == None && pos == |code| && status == Some(EndOfFile)
    {
      hide Pow2, Or, UnsignedOf, SignedOf, Sum;
      var ok, result, offset, last := ReadRun(bits);
      if !ok {
        return None;
      }
      ghost var s := old(Left())[..RunLength(old(Left())).value];
      if last % 0x80 >= 0x40 && offset < bits {
        SignFill(s, bits);
        SmallSum(s, bits);
        v := Some(Or(result, Pow2(bits) - Pow2(offset)));
      } else {
        SignKept(s, bits);
        v := Some(result);
      }
    }

    method ReadFloat(k: nat) returns (v: Option<nat>)
      requires Valid() && (k == 4 || k == 8)
      modifies `pos, `status
      ensures Valid()
      ensures match ReadFixed(old(Left()), k)
              case Got(x, n) => v == Some(x) && pos == old(pos) + n && status == old(status)
              case _ => v == None && pos == |code| && status == Some(EndOfFile)
    {
      if pos + k > |code| {
        pos := |code|;
        status := Some(EndOfFile);
        return None;
      }
      hide Shifted, Or, Bytes;
      ghost var s := Left();
      NoBytes(s);
      var u := 0;
      for i := 0 to k
        invariant pos == old(pos) + i && Valid() && status == old(status)
        invariant u == Bytes(s[..i])
      {
        BytesTurn(s, i);
        u := Or(u, Shifted(code[pos], 8 * i));
        pos := pos + 1;
      }
      v := Some(u);
    }
  }

  // ----- facts about runs -----

  lemma {:induction false} NoRun(s: seq<Byte>)
    requires forall k :: 0 <= k < |s| ==> More(s[k])
    ensures RunLength(s) == None
  {
    if s != [] {
      NoRun(s[1..]);
    }
  }

  lemma RunFound(s: seq<Byte>, n: nat)
    requires 0 < n <= |s| && !More(s[n - 1]) && forall k :: 0 <= k < n - 1 ==> More(s[k])
    ensures RunLength(s) == Some(n)
  {
    hide RunLength;
    assert IsRun(s[..n]);
    RunLengthOfRun(s[..n], s[n..]);
    assert s[..n] + s[n..] == s;
  }

  /** A run that does not end within its limit is not read at all. */
  lemma LongRun(s: seq<Byte>, n: nat, bits: nat)
    requires WordSize(bits) && 0 < n <= |s| && (forall k :: 0 <= k < n ==> More(s[k]))
    requires !ReadUnsigned(s, bits).Overlong? && n <= MaxRun(bits)
    ensures n < MaxRun(bits) || n == |s|
  {
    if RunLength(s).Some? {
      var m := RunLength(s).value;
      assert !More(s[..m][m - 1]);
      assert m > n;
    }
  }

  lemma Start(s: seq<Byte>, bits: nat)
    ensures UnsignedOf(s[..0], bits) == 0
  {
    assert Sum(s[..0]) == 0;
    ModUnique(0, 0, 0, Pow2(bits));
  }

  /** One turn of the loop, within the limit of the run. */
  lemma Turn(s: seq<Byte>, n: nat, bits: nat)
    requires WordSize(bits) && n < |s| && n < MaxRun(bits)
    ensures Or(UnsignedOf(s[..n], bits), s[n] % 0x80 * Pow2(7 * n) % Pow2(bits)) == UnsignedOf(s[..n + 1], bits)
  {
    hide Pow2, Or, Sum;
    Accumulate(s[..n], s[n], bits);
    SmallSum(s[..n], bits);
    assert s[..n + 1] == s[..n] + [s[n]];
  }

  /** Before the last digit the sum has not reached the word size. */
  lemma SmallSum(s: seq<Byte>, bits: nat)
    requires 7 * |s| < bits
    ensures UnsignedOf(s, bits) == Sum(s)
  {
    SumBound(s);
    WeightIsPow2(|s|);
    PowSplit(bits - 7 * |s|, 7 * |s|);
    MulGrows(Pow2(bits - 7 * |s|), Pow2(7 * |s|));
    ModUnique(Sum(s), 0, Sum(s), Pow2(bits));
  }

  function Shifted(b: Byte, k: nat): nat {
    b * Pow2(k)
  }

  lemma NoBytes(s: seq<Byte>)
    ensures Bytes(s[..0]) == 0
  {
  }

  lemma BytesTurn(s: seq<Byte>, i: nat)
    requires i < |s|
    ensures Or(Bytes(s[..i]), Shifted(s[i], 8 * i)) == Bytes(s[..i + 1])
  {
    hide Pow2, Or, Bytes;
    BytesAppend(s[..i], s[i]);
    assert s[..i + 1] == s[..i] + [s[i]];
    OrDisjoint(Bytes(s[..i]), s[i], 8 * i);
  }

  lemma {:induction false} BytesAppend(s: seq<Byte>, b: Byte)
    ensures Bytes(s + [b]) == Bytes(s) + b * Pow2(8 * |s|)
  {
    hide Pow2;
    if s == [] {
      assert s + [b] == [b] && [b][1..] == [];
      assert Bytes([]) == 0;
      OnePow();
    } else {
      assert (s + [b])[1..] == s[1..] + [b];
      BytesAppend(s[1..], b);
      var p := Pow2(8 * (|s| - 1));
      assert Pow2(8 * |s|) == 256 * p by {
        PowSplit(8, 8 * |s| - 8);
        Pow2Byte();
      }
      Shuffle(b, p);
    }
  }

  lemma OnePow()
    ensures Pow2(0) == 1
  {
  }

  lemma Shuffle(b: int, p: int)
    ensures 256 * (b * p) == b * (256 * p)
  {
  }
}
