/** The sponge around Keccak-f: absorbing in blocks, multi-rate padding and the
    incremental object, sections 4 and 5.1 of FIPS 202 without a domain suffix. */
module Sponge {
  import opened KeccakF
  import Leb128

  datatype Octet = Octet(bits: bv8)

  // ----- lanes and bytes -----

  /** Byte `j` of a word, the lowest first. */
  function Pick(w: bv64, j: nat): bv8
    requires j < 8
  {
    match j
    case 0 => (w & 0xFF) as bv8
    case 1 => ((w >> 8) & 0xFF) as bv8
    case 2 => ((w >> 16) & 0xFF) as bv8
    case 3 => ((w >> 24) & 0xFF) as bv8
    case 4 => ((w >> 32) & 0xFF) as bv8
    case 5 => ((w >> 40) & 0xFF) as bv8
    case 6 => ((w >> 48) & 0xFF) as bv8
    case _ => ((w >> 56) & 0xFF) as bv8
  }

  /** The first byte is the lowest one, and the next ones are those of the shifted word. */
  lemma LowestFirst(w: bv64, j: nat)
    requires j < 7
    ensures (Pick(w, 0) as bv64) | ((w >> 8) << 8) == w && Pick(w, j + 1) == Pick(w >> 8, j)
  {
  }

  function ByteOf(l: Lane, j: nat): Octet
    requires j < 8
  {
    Octet(Pick(l.word, j))
  }

  /** Eight bytes as a lane, the first byte lowest. */
  function LaneOf(s: seq<Octet>): Lane
    requires |s| == 8
  {
    Lane(Gather(s[0].bits, s[1].bits, s[2].bits, s[3].bits, s[4].bits, s[5].bits, s[6].bits, s[7].bits))
  }

  function Gather(a: bv8, b: bv8, c: bv8, d: bv8, e: bv8, f: bv8, g: bv8, h: bv8): bv64 {
    (a as bv64) | ((b as bv64) << 8) | ((c as bv64) << 16) | ((d as bv64) << 24)
    | ((e as bv64) << 32) | ((f as bv64) << 40) | ((g as bv64) << 48) | ((h as bv64) << 56)
  }

  lemma Gathered(a: bv8, b: bv8, c: bv8, d: bv8, e: bv8, f: bv8, g: bv8, h: bv8)
    ensures var w := Gather(a, b, c, d, e, f, g, h);
            && Pick(w, 0) == a && Pick(w, 1) == b && Pick(w, 2) == c && Pick(w, 3) == d
            && Pick(w, 4) == e && Pick(w, 5) == f && Pick(w, 6) == g && Pick(w, 7) == h
  {
  }

  lemma LaneBytes(s: seq<Octet>, j: nat)
    requires |s| == 8 && j < 8
    ensures ByteOf(LaneOf(s), j) == s[j]
  {
    hide Gather, Pick;
    Gathered(s[0].bits, s[1].bits, s[2].bits, s[3].bits, s[4].bits, s[5].bits, s[6].bits, s[7].bits);
  }

  function XorByte(x: bv8, y: bv8): bv8 { x ^ y }

  function XorOctet(a: Octet, b: Octet): Octet {
    Octet(XorByte(a.bits, b.bits))
  }

  lemma RawPicked(a: bv64, b: bv64)
    ensures Pick(a ^ b, 0) == Pick(a, 0) ^ Pick(b, 0)
    ensures Pick(a ^ b, 1) == Pick(a, 1) ^ Pick(b, 1)
    ensures Pick(a ^ b, 2) == Pick(a, 2) ^ Pick(b, 2)
    ensures Pick(a ^ b, 3) == Pick(a, 3) ^ Pick(b, 3)
    ensures Pick(a ^ b, 4) == Pick(a, 4) ^ Pick(b, 4)
    ensures Pick(a ^ b, 5) == Pick(a, 5) ^ Pick(b, 5)
    ensures Pick(a ^ b, 6) == Pick(a, 6) ^ Pick(b, 6)
    ensures Pick(a ^ b, 7) == Pick(a, 7) ^ Pick(b, 7)
  {
  }

  lemma Picked(a: bv64, b: bv64)
    ensures Pick(XorWord(a, b), 0) == XorByte(Pick(a, 0), Pick(b, 0))
    ensures Pick(XorWord(a, b), 1) == XorByte(Pick(a, 1), Pick(b, 1))
    ensures Pick(XorWord(a, b), 2) == XorByte(Pick(a, 2), Pick(b, 2))
    ensures Pick(XorWord(a, b), 3) == XorByte(Pick(a, 3), Pick(b, 3))
    ensures Pick(XorWord(a, b), 4) == XorByte(Pick(a, 4), Pick(b, 4))
    ensures Pick(XorWord(a, b), 5) == XorByte(Pick(a, 5), Pick(b, 5))
    ensures Pick(XorWord(a, b), 6) == XorByte(Pick(a, 6), Pick(b, 6))
    ensures Pick(XorWord(a, b), 7) == XorByte(Pick(a, 7), Pick(b, 7))
  {
    hide Pick;
    RawPicked(a, b);
  }

  lemma XorBytes(a: Lane, b: Lane, j: nat)
    requires j < 8
    ensures ByteOf(Xor(a, b), j) == XorOctet(ByteOf(a, j), ByteOf(b, j))
  {
    hide Pick, XorWord, XorByte;
    Picked(a.word, b.word);
  }

  function StateBytes(a: Lanes): (s: seq<Octet>)
    ensures |s| == 200
  {
    seq(200, k requires 0 <= k < 200 => ByteOf(a[k / 8], k % 8))
  }

  // ----- absorbing -----

  function ZeroState(): Lanes {
    seq(25, _ => Lane(0))
  }

  predicate Rate(r: nat) {
    0 < r <= 200 && r % 8 == 0
  }

  /** Lane `i` of the bytes of a block. */
  function BlockLane(block: seq<Octet>, i: nat): Lane
    requires 8 * i + 8 <= |block|
  {
    LaneOf(block[8 * i..8 * i + 8])
  }

  function XorBlock(a: Lanes, block: seq<Octet>): Lanes
    requires Rate(|block|)
  {
    seq(25, i requires 0 <= i < 25 => if i < |block| / 8 then Xor(a[i], BlockLane(block, i)) else a[i])
  }

  /** Byte by byte: the block is added to the front of the state, the rest stays. */
  lemma BlockXored(a: Lanes, block: seq<Octet>, k: nat)
    requires Rate(|block|) && k < 200
    ensures StateBytes(XorBlock(a, block))[k]
         == if k < |block| then XorOctet(StateBytes(a)[k], block[k]) else StateBytes(a)[k]
  {
    hide ByteOf, LaneOf, Xor, XorOctet;
    var i, j := k / 8, k % 8;
    if k < |block| {
      XorBytes(a[i], BlockLane(block, i), j);
      LaneBytes(block[8 * i..8 * i + 8], j);
      assert block[8 * i..8 * i + 8][j] == block[k];
    }
  }

  type Block = seq<Octet>

  predicate Sized(r: nat, bs: seq<Block>) {
    forall i :: 0 <= i < |bs| ==> |bs[i]| == r
  }

  /** The whole blocks of `r` bytes of a message, and what is left after them. */
  function Blocks(r: nat, m: seq<Octet>): (bs: seq<Block>)
    requires r > 0
    ensures Sized(r, bs)
    decreases |m|
  {
    if |m| < r then [] else [m[..r]] + Blocks(r, m[r..])
  }

  function Rest(r: nat, m: seq<Octet>): (t: seq<Octet>)
    requires r > 0
    ensures |t| < r
    decreases |m|
  {
    if |m| < r then m else Rest(r, m[r..])
  }

  function AbsorbAll(r: nat, bs: seq<Block>): Lanes
    requires Rate(r) && Sized(r, bs)
    decreases |bs|
  {
    if bs == [] then ZeroState()
    else Permute(XorBlock(AbsorbAll(r, bs[..|bs| - 1]), bs[|bs| - 1]))
  }

  /** Bytes added at the end fill the last block. */
  lemma {:induction false} Appended(r: nat, m: seq<Octet>, t: seq<Octet>)
    requires r > 0 && |Rest(r, m)| + |t| <= r
    ensures |Rest(r, m)| + |t| < r ==> Blocks(r, m + t) == Blocks(r, m) && Rest(r, m + t) == Rest(r, m) + t
    ensures |Rest(r, m)| + |t| == r ==> Blocks(r, m + t) == Blocks(r, m) + [Rest(r, m) + t] && Rest(r, m + t) == []
    decreases |m|
  {
    if |m| >= r {
      Appended(r, m[r..], t);
      assert (m + t)[..r] == m[..r] && (m + t)[r..] == m[r..] + t;
    } else if |m| + |t| == r {
      assert (m + t)[..r] == m + t && (m + t)[r..] == [];
    }
  }

  lemma {:induction false} RestLength(r: nat, m: seq<Octet>)
    requires r > 0
    ensures |Rest(r, m)| == |m| % r
    decreases |m|
  {
    if |m| >= r {
      RestLength(r, m[r..]);
      Leb128.ModShift(|m| - r, 1, r);
    }
  }

  // ----- padding -----

  function Zeros(n: nat): seq<Octet> {
    seq(n, _ => Octet(0))
  }

  /** Multi-rate padding of a last block of `n` bytes. */
  function Pad(r: nat, n: nat): (p: seq<Octet>)
    requires n < r
    ensures |p| == r - n
  {
    if n + 1 == r then [Octet(0x81)] else [Octet(0x01)] + Zeros(r - n - 2) + [Octet(0x80)]
  }

  function Padded(r: nat, m: seq<Octet>): seq<Octet>
    requires r > 0
  {
    m + Pad(r, |Rest(r, m)|)
  }

  function Bits(b: Octet): seq<bool> {
    [b.bits & 1 != 0, b.bits & 2 != 0, b.bits & 4 != 0, b.bits & 8 != 0,
     b.bits & 16 != 0, b.bits & 32 != 0, b.bits & 64 != 0, b.bits & 128 != 0]
  }

  function AllBits(s: seq<Octet>): seq<bool> {
    if s == [] then [] else Bits(s[0]) + AllBits(s[1..])
  }

  lemma {:induction false} AllBitsAppend(s: seq<Octet>, t: seq<Octet>)
    ensures AllBits(s + t) == AllBits(s) + AllBits(t)
    decreases |s|
  {
    hide Bits;
    if s == [] {
      assert s + t == t;
    } else {
      assert (s + t)[1..] == s[1..] + t;
      AllBitsAppend(s[1..], t);
    }
  }

  lemma {:induction false} ZeroBits(n: nat)
    ensures AllBits(Zeros(n)) == seq(8 * n, _ => false)
    decreases n
  {
    if n > 0 {
      assert Zeros(n)[1..] == Zeros(n - 1);
      ZeroBits(n - 1);
      ZeroOctet();
      hide Bits;
      assert AllBits(Zeros(n)) == Bits(Octet(0)) + AllBits(Zeros(n - 1));
    }
  }

  lemma ZeroOctet()
    ensures Bits(Octet(0)) == [false, false, false, false, false, false, false, false]
  {
  }

  lemma PadOctets()
    ensures Bits(Octet(0x01)) == [true] + [false, false, false, false, false, false, false]
    ensures Bits(Octet(0x80)) == [false, false, false, false, false, false, false] + [true]
    ensures Bits(Octet(0x81)) == [true] + [false, false, false, false, false, false] + [true]
  {
  }

  lemma OneOctet(b: Octet)
    ensures AllBits([b]) == Bits(b)
  {
    hide Bits;
    assert [b][1..] == [];
  }

  /** As bits, lowest first, the padding is a one, zeros and a one: pad10*1. */
  lemma PadIsPad101(r: nat, n: nat)
    requires n < r
    ensures AllBits(Pad(r, n)) == [true] + seq(8 * (r - n) - 2, _ => false) + [true]
  {
    hide Bits, AllBits;
    PadOctets();
    if n + 1 == r {
      OneOctet(Octet(0x81));
    } else {
      var z := Zeros(r - n - 2);
      AllBitsAppend([Octet(0x01)] + z, [Octet(0x80)]);
      AllBitsAppend([Octet(0x01)], z);
      OneOctet(Octet(0x01));
      OneOctet(Octet(0x80));
      ZeroBits(r - n - 2);
    }
  }

  lemma PaddedWhole(r: nat, m: seq<Octet>)
    requires r > 0
    ensures Rest(r, Padded(r, m)) == []
    ensures Blocks(r, Padded(r, m)) == Blocks(r, m) + [Rest(r, m) + Pad(r, |Rest(r, m)|)]
  {
    Appended(r, m, Pad(r, |Rest(r, m)|));
  }

  /** The byte after the message tells where the padding begins. */
  lemma PadAt(r: nat, n: nat, k: nat)
    requires n <= k < r
    ensures var p := Pad(r, n)[k - n];
            p == if k == n then (if n + 1 == r then Octet(0x81) else Octet(0x01))
                 else if k == r - 1 then Octet(0x80) else Octet(0)
  {
  }

  lemma {:induction false} BlocksJoin(r: nat, m: seq<Octet>)
    requires r > 0
    ensures m == Join(Blocks(r, m)) + Rest(r, m)
    decreases |m|
  {
    if |m| >= r {
      BlocksJoin(r, m[r..]);
      var bs := Blocks(r, m[r..]);
      assert Blocks(r, m)[1..] == bs;
      assert m == m[..r] + m[r..];
    }
  }

  function Join(bs: seq<Block>): seq<Octet> {
    if bs == [] then [] else bs[0] + Join(bs[1..])
  }

  /** Different messages have different padded blocks. */
  lemma PaddingInjective(r: nat, m: seq<Octet>, w: seq<Octet>)
    requires r > 0 && Blocks(r, Padded(r, m)) == Blocks(r, Padded(r, w))
    ensures m == w
  {
    hide Pad, Join, Blocks, Rest;
    PaddedWhole(r, m);
    PaddedWhole(r, w);
    var s, t := Rest(r, m), Rest(r, w);
    var bs, cs := Blocks(r, m), Blocks(r, w);
    assert bs == (bs + [s + Pad(r, |s|)])[..|bs|] && cs == (cs + [t + Pad(r, |t|)])[..|cs|];
    assert bs == cs && s + Pad(r, |s|) == t + Pad(r, |t|);
    SameRest(r, s, t);
    BlocksJoin(r, m);
    BlocksJoin(r, w);
  }

  lemma SameRest(r: nat, s: seq<Octet>, t: seq<Octet>)
    requires |s| < r && |t| < r && s + Pad(r, |s|) == t + Pad(r, |t|)
    ensures s == t
  {
    if |s| < |t| {
      LongerRest(r, s, t);
    } else if |t| < |s| {
      LongerRest(r, t, s);
    } else {
      assert s == (s + Pad(r, |s|))[..|s|] && t == (t + Pad(r, |t|))[..|s|];
    }
  }

  lemma LongerRest(r: nat, s: seq<Octet>, t: seq<Octet>)
    requires |s| < |t| < r
    ensures s + Pad(r, |s|) != t + Pad(r, |t|)
  {
    hide Pad;
    var k := |t|;
    assert (s + Pad(r, |s|))[k] == Pad(r, |s|)[k - |s|];
    assert (t + Pad(r, |t|))[k] == Pad(r, |t|)[0];
    PadAt(r, |s|, k);
    PadAt(r, |t|, k);
  }

  // ----- the hash of a message -----

  predicate HashLength(length: nat) {
    0 < length <= 512 && length % 32 == 0
  }

  function RateOf(length: nat): (r: nat)
    requires HashLength(length)
    ensures Rate(r) && length / 8 < r
  {
    200 - 2 * (length / 8)
  }

  /** The capacity is twice the length of the hash. */
  lemma Capacity(length: nat)
    requires HashLength(length)
    ensures 8 * RateOf(length) + 2 * length == 1600
  {
  }

  /** Absorb the padded message from the zero state and squeeze. */
  function Hash(length: nat, m: seq<Octet>): (h: seq<Octet>)
    requires HashLength(length)
    ensures |h| == length / 8
  {
    var r := RateOf(length);
    StateBytes(AbsorbAll(r, Blocks(r, Padded(r, m))))[..length / 8]
  }

  // ----- the incremental state -----

  datatype State = State(lanes: Lanes, buffer: seq<Octet>, fill: nat) {
    predicate Valid(r: nat) {
      Rate(r) && |buffer| == r && fill < r
    }
  }

  /** XOR the buffer in, permute, and start over; the buffer keeps its bytes. */
  function Process(s: State): State
    requires Rate(|s.buffer|)
  {
    State(Permute(XorBlock(s.lanes, s.buffer)), s.buffer, 0)
  }

  function Settle(s: State): State
    requires Rate(|s.buffer|)
  {
    if s.fill == |s.buffer| then Process(s) else s
  }

  function FeedByte(s: State, b: Octet): (t: State)
    requires s.Valid(|s.buffer|)
    ensures t.Valid(|s.buffer|)
  {
    Settle(State(s.lanes, s.buffer[s.fill := b], s.fill + 1))
  }

  /** Byte-wise feeding. */
  function Feed(s: State, m: seq<Octet>): (t: State)
    requires s.Valid(|s.buffer|)
    ensures t.Valid(|s.buffer|)
    decreases |m|
  {
    if m == [] then s else FeedByte(Feed(s, m[..|m| - 1]), m[|m| - 1])
  }

  /** What the state stands for. */
  predicate Represents(r: nat, s: State, m: seq<Octet>) {
    && s.Valid(r)
    && s.lanes == AbsorbAll(r, Blocks(r, m))
    && s.fill == |Rest(r, m)| && s.buffer[..s.fill] == Rest(r, m)
  }

  lemma AbsorbOne(r: nat, bs: seq<Block>, b: Block)
    requires Rate(r) && |b| == r && Sized(r, bs)
    ensures AbsorbAll(r, bs + [b]) == Permute(XorBlock(AbsorbAll(r, bs), b))
  {
    hide Permute, XorBlock;
    assert (bs + [b])[..|bs|] == bs;
  }

  lemma FeedByteRepresents(r: nat, s: State, m: seq<Octet>, b: Octet)
    requires Represents(r, s, m)
    ensures Represents(r, FeedByte(s, b), m + [b])
  {
    hide Permute, XorBlock, Blocks, Rest, AbsorbAll;
    Appended(r, m, [b]);
    var buf := s.buffer[s.fill := b];
    assert buf[..s.fill + 1] == s.buffer[..s.fill] + [b];
    if s.fill + 1 == r {
      assert buf[..r] == buf;
      AbsorbOne(r, Blocks(r, m), Rest(r, m) + [b]);
    }
  }

  /** Feeding any bytes extends the message the state stands for. */
  lemma {:induction false} FeedRepresents(r: nat, s: State, m: seq<Octet>, t: seq<Octet>)
    requires Represents(r, s, m)
    ensures Represents(r, Feed(s, t), m + t)
    decreases |t|
  {
    hide FeedByte, AbsorbAll, Blocks, Rest, Permute, XorBlock;
    assert s.Valid(r);
    hide Represents;
    if t == [] {
      assert m + t == m;
    } else {
      var n := |t| - 1;
      FeedRepresents(r, s, m, t[..n]);
      FeedByteRepresents(r, Feed(s, t[..n]), m + t[..n], t[n]);
      assert m + t[..n] + [t[n]] == m + t;
    }
  }

  /** Feeding in pieces is feeding at once, whatever the split. */
  lemma {:induction false} FeedSplit(s: State, t: seq<Octet>, u: seq<Octet>)
    requires s.Valid(|s.buffer|)
    ensures Feed(Feed(s, t), u) == Feed(s, t + u)
    decreases |u|
  {
    hide FeedByte;
    if u == [] {
      assert t + u == t;
    } else {
      var n := |u| - 1;
      FeedSplit(s, t, u[..n]);
      assert (t + u)[..|t + u| - 1] == t + u[..n];
    }
  }

  /** Copying a chunk that fits and then processing a full buffer is feeding it. */
  function Copied(s: State, t: seq<Octet>): State
    requires s.fill + |t| <= |s.buffer|
  {
    State(s.lanes, s.buffer[..s.fill] + t + s.buffer[s.fill + |t|..], s.fill + |t|)
  }

  lemma {:induction false} ChunkFed(s: State, t: seq<Octet>)
    requires s.Valid(|s.buffer|) && s.fill + |t| <= |s.buffer|
    ensures Feed(s, t) == Settle(Copied(s, t))
    decreases |t|
  {
    hide Process;
    if t == [] {
      assert Copied(s, t).buffer == s.buffer;
    } else {
      var n := |t| - 1;
      ChunkFed(s, t[..n]);
      assert Copied(s, t[..n]).buffer[s.fill + n := t[n]] == Copied(s, t).buffer;
    }
  }

  function PadBuffer(s: State): (t: State)
    requires s.Valid(|s.buffer|)
    ensures |t.buffer| == |s.buffer|
  {
    s.(buffer := s.buffer[..s.fill] + Pad(|s.buffer|, s.fill))
  }

  function Squeeze(length: nat, a: Lanes): seq<Octet>
    requires length / 8 <= 200
  {
    StateBytes(a)[..length / 8]
  }

  /** The digest depends on the message alone: neither the bytes left in the buffer
      nor how the message was fed matter. */
  lemma DigestIsHash(length: nat, s: State, m: seq<Octet>)
    requires HashLength(length) && Represents(RateOf(length), s, m)
    ensures Squeeze(length, Process(PadBuffer(s)).lanes) == Hash(length, m)
  {
    hide Permute, XorBlock, Blocks, Rest, AbsorbAll, StateBytes, Pad;
    var r := RateOf(length);
    PaddedWhole(r, m);
    AbsorbOne(r, Blocks(r, m), Rest(r, m) + Pad(r, |Rest(r, m)|));
  }

  lemma FreshRepresents(r: nat, buffer: seq<Octet>)
    requires Rate(r) && |buffer| == r
    ensures Represents(r, State(ZeroState(), buffer, 0), [])
  {
  }
}
