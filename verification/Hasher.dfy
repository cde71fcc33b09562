/** The incremental hash object with its lane array and byte buffer. */
module Hasher {
  import opened KeccakF
  import opened Sponge

  class Keccak {
    const A: array<Lane>
    const buffer: array<Octet>
    const blockLen: nat
    const length: nat
    var bufferLen: nat
    /** The bytes added since the last digest. */
    ghost var message: seq<Octet>

    ghost predicate Valid()
      reads this, A, buffer
    {
      && Shaped()
      && Represents(blockLen, St(), message)
    }

    predicate Shaped()
      reads this, A, buffer
    {
      && HashLength(length) && blockLen == RateOf(length)
      && A.Length == 25 && buffer.Length == blockLen && bufferLen < blockLen
    }

    function St(): State
      requires A.Length == 25
      reads this, A, buffer
    {
      State(A[..], buffer[..], bufferLen)
    }

    constructor (hashLength: nat)
      requires HashLength(hashLength)
      ensures Valid() && message == [] && length == hashLength && fresh(A) && fresh(buffer)
    {
      blockLen := 200 - 2 * (hashLength / 8);
      A := new Lane[25](_ => Lane(0));
      buffer := new Octet[200 - 2 * (hashLength / 8)](_ => Octet(0));
      bufferLen := 0;
      length := hashLength;
      message := [];
      new;
      hide Permute, XorBlock;
      assert A[..] == ZeroState();
      FreshRepresents(blockLen, buffer[..]);
    }

    /** Clears the lanes and forgets the buffered bytes, which stay where they are. */
    method Reset()
      requires Shaped()
      modifies this, A
      ensures Valid() && message == [] && St() == State(ZeroState(), old(buffer[..]), 0)
    {
      hide Permute, XorBlock;
      for i := 0 to 25
        invariant forall k :: 0 <= k < i ==> A[k] == Lane(0)
      {
        A[i] := Lane(0);
      }
      bufferLen := 0;
      message := [];
      assert A[..] == ZeroState();
      FreshRepresents(blockLen, buffer[..]);
    }

    /** XOR of the buffer into the lanes, then the permutation. */
    method ProcessBuffer()
      requires A.Length == 25 && Rate(blockLen) && buffer.Length == blockLen
      modifies `bufferLen, A
      ensures St() == Process(old(St())) && bufferLen == 0
    {
      hide Permute, Xor, BlockLane;
      ghost var a := A[..];
      for i := 0 to blockLen / 8
        invariant buffer[..] == old(buffer[..])
        invariant forall k :: 0 <= k < 25 ==> A[k] == if k < i then Xor(a[k], BlockLane(buffer[..], k)) else a[k]
      {
        A[i] := Xor(A[i], LoadLane(i));
      }
      assert A[..] == XorBlock(a, buffer[..]);
      PermuteInPlace(A);
      bufferLen := 0;
    }

    function LoadLane(i: nat): (l: Lane)
      requires 8 * i + 8 <= buffer.Length
      reads buffer
      ensures l == BlockLane(buffer[..], i)
    {
      LaneOf(buffer[8 * i..8 * i + 8])
    }

    /** One byte. */
    method AddByte(input: Octet)
      requires Valid()
      modifies this, A, buffer
      ensures Valid() && message == old(message) + [input]
      ensures St() == Feed(old(St()), [input])
    {
      hide Represents, Process;
      FeedOne(St(), input);
      FeedByteRepresents(blockLen, St(), message, input);
      buffer[bufferLen] := input;
      bufferLen := bufferLen + 1;
      if bufferLen == blockLen {
        ProcessBuffer();
      }
      message := message + [input];
    }

    /** Copies as much as fits into the buffer, again and again: the lanes, the
        buffer and its length end as if the bytes had been added one by one. */
    method AddData(input: seq<Octet>, off: nat, len: nat)
      requires Valid() && off + len <= |input|
      modifies this, A, buffer
      ensures Valid() && message == old(message) + input[off..off + len]
      ensures St() == Feed(old(St()), input[off..off + len])
    {
      hide Represents, Process, Feed;
      ghost var s := St();
      var from: nat, left: nat := off, len;
      FeedNothing(s);
      assert input[off..from] == [];
      while left > 0
        invariant Shaped() && off <= from && from + left == off + len && message == old(message)
        invariant St() == Feed(s, input[off..from])
        decreases left
      {
        var cpLen := if blockLen - bufferLen > left then left else blockLen - bufferLen;
        ghost var st := St();
        CopyIn(input, from, cpLen);
        ChunkFed(st, input[from..from + cpLen]);
        FeedSplit(s, input[off..from], input[from..from + cpLen]);
        assert input[off..from] + input[from..from + cpLen] == input[off..from + cpLen];
        from := from + cpLen;
        left := left - cpLen;
        if bufferLen == blockLen {
          ProcessBuffer();
        }
      }
      FeedRepresents(blockLen, s, message, input[off..off + len]);
      message := message + input[off..off + len];
    }

    method CopyIn(input: seq<Octet>, from: nat, cpLen: nat)
      requires A.Length == 25 && bufferLen + cpLen <= buffer.Length && from + cpLen <= |input|
      modifies `bufferLen, buffer
      ensures St() == Copied(old(St()), input[from..from + cpLen])
    {
      ghost var b, n := buffer[..], bufferLen;
      for i := 0 to cpLen
        invariant bufferLen == n
        invariant forall k :: 0 <= k < buffer.Length ==> buffer[k] == if n <= k < n + i then input[from + k - n]
              else b[k]
      {
        buffer[bufferLen + i] := input[from + i];
      }
      bufferLen := bufferLen + cpLen;
      assert buffer[..] == b[..n] + input[from..from + cpLen] + b[n + cpLen..];
    }

    method AddPadding()
      requires Shaped()
      modifies buffer
      ensures St() == PadBuffer(old(St()))
    {
      ghost var b := buffer[..bufferLen];
      if bufferLen + 1 == blockLen {
        buffer[bufferLen] := Octet(0x81);
      } else {
        buffer[bufferLen] := Octet(0x01);
        for i := bufferLen + 1 to blockLen - 1
          invariant buffer[..bufferLen] == b && buffer[bufferLen] == Octet(0x01)
          invariant forall k :: bufferLen < k < i ==> buffer[k] == Octet(0)
        {
          buffer[i] := Octet(0);
        }
        buffer[blockLen - 1] := Octet(0x80);
      }
      assert buffer[..] == b + Pad(blockLen, bufferLen);
    }

    /** The first length / 8 bytes of the lanes, whole lanes first. */
    method Output() returns (tmp: seq<Octet>)
      requires Shaped()
      ensures tmp == Squeeze(length, A[..])
    {
      hide ByteOf;
      ghost var all := StateBytes(A[..]);
      var bytes := length / 8;
      var quads := bytes / 8;
      tmp := [];
      for i := 0 to quads
        invariant tmp == all[..8 * i]
      {
        tmp := LaneOut(tmp, i, 8);
      }
      if bytes % 8 != 0 {
        tmp := LaneOut(tmp, quads, bytes % 8);
      }
    }

    method LaneOut(tmp: seq<Octet>, i: nat, count: nat) returns (out: seq<Octet>)
      requires A.Length == 25 && i < 25 && count <= 8 && tmp == StateBytes(A[..])[..8 * i]
      ensures out == StateBytes(A[..])[..8 * i + count]
    {
      hide ByteOf;
      ghost var all := StateBytes(A[..]);
      out := tmp;
      for j := 0 to count
        invariant out == all[..8 * i + j]
      {
        out := out + [ByteOf(A[i], j)];
        assert all[8 * i + j] == ByteOf(A[i], j);
      }
    }

    /** The hash of the bytes added since the last digest: it does not depend on
        how they were split, on messages hashed before, or on what they left in
        the buffer. The object is then ready for the next message. */
    method Digest() returns (hash: seq<Octet>)
      requires Valid()
      modifies this, A, buffer
      ensures hash == Hash(length, old(message)) && |hash| == length / 8
      ensures Valid() && message == []
    {
      hide Represents, Process, Hash, Squeeze;
      DigestIsHash(length, St(), message);
      AddPadding();
      ProcessBuffer();
      hash := Output();
      Reset();
    }
  }

  lemma FeedOne(s: State, b: Octet)
    requires s.Valid(|s.buffer|)
    ensures Feed(s, [b]) == FeedByte(s, b)
  {
    hide FeedByte;
    assert [b][..0] == [];
  }

  lemma FeedNothing(s: State)
    requires s.Valid(|s.buffer|)
    ensures Feed(s, []) == s
  {
  }
}
