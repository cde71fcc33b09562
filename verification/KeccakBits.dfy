/** Keccak-f[1600] bit by bit, as sections 3.2 and 3.3 of FIPS 202 define it on the state
    array A[x, y, z], and the permutation on lanes against it. */
module KeccakBits {
  import opened KeccakF

  /** A state array. The third coordinate counts modulo 64, as bv6 does. */
  type Cube = (Coord, Coord, bv6) -> bool

  // ----- the step mappings on bits -----

  function One(b: bool): nat {
    if b then 1 else 0
  }

  /** Whether the number of ones in column (x, z) is odd. */
  predicate Odd(c: Cube, x: Coord, z: bv6) {
    (One(c(x, 0, z)) + One(c(x, 1, z)) + One(c(x, 2, z)) + One(c(x, 3, z)) + One(c(x, 4, z))) % 2 == 1
  }

  /** Exclusive or of two bits. */
  predicate Plus(a: bool, b: bool) {
    (a && !b) || (!a && b)
  }

  predicate ThetaBit(c: Cube, x: Coord, y: Coord, z: bv6) {
    Plus(c(x, y, z), Plus(Odd(c, (x + 4) % 5, z), Odd(c, (x + 1) % 5, z - 1)))
  }

  predicate RhoBit(c: Cube, x: Coord, y: Coord, z: bv6) {
    c(x, y, z - Offset(x, y))
  }

  /** The distance by which lane (x, y) is rotated. */
  function Offset(x: Coord, y: Coord): bv6 {
    R(Pos(x, y)) as bv6
  }

  predicate PiBit(c: Cube, x: Coord, y: Coord, z: bv6) {
    c((x + 3 * y) % 5, x, z)
  }

  predicate ChiBit(c: Cube, x: Coord, y: Coord, z: bv6) {
    Plus(c(x, y, z), !c((x + 1) % 5, y, z) && c((x + 2) % 5, y, z))
  }

  predicate IotaBit(c: Cube, n: nat, x: Coord, y: Coord, z: bv6)
    requires n < 24
  {
    if x == 0 && y == 0 then Plus(c(x, y, z), ConstantBit(n, z)) else c(x, y, z)
  }

  /** The places 2^j - 1 of a word hold `o0` to `o6`; all others are zero. */
  predicate Spread(o0: bool, o1: bool, o2: bool, o3: bool, o4: bool, o5: bool, o6: bool, z: bv6) {
    match z
    case 0 => o0 case 1 => o1 case 3 => o2 case 7 => o3 case 15 => o4 case 31 => o5 case 63 => o6
    case _ => false
  }

  /** Bit 2^j - 1 of round constant `n` is the output of the shift register after 7n + j
      steps. */
  predicate ConstantBit(n: nat, z: bv6)
    requires n < 24
  {
    var s := RegisterAt(n);
    var s1 := Shift(s); var s2 := Shift(s1); var s3 := Shift(s2); var s4 := Shift(s3); var s5 := Shift(s4);
    Spread(s.b0, s1.b0, s2.b0, s3.b0, s4.b0, s5.b0, Shift(s5).b0, z)
  }

  function RoundCube(c: Cube, n: nat): Cube
    requires n < 24
  {
    var theta: Cube := (x: Coord, y: Coord, z: bv6) => ThetaBit(c, x, y, z);
    var rho: Cube := (x: Coord, y: Coord, z: bv6) => RhoBit(theta, x, y, z);
    var pi: Cube := (x: Coord, y: Coord, z: bv6) => PiBit(rho, x, y, z);
    var chi: Cube := (x: Coord, y: Coord, z: bv6) => ChiBit(pi, x, y, z);
    (x: Coord, y: Coord, z: bv6) => IotaBit(chi, n, x, y, z)
  }

  function RoundsCube(c: Cube, n: nat): Cube
    requires n <= 24
  {
    if n == 0 then c else RoundCube(RoundsCube(c, n - 1), n - 1)
  }

  // ----- words as bits -----

  predicate IsSet(w: bv64, z: bv6) {
    Bit(w, z) == 1
  }

  lemma RawXor(x: bv64, y: bv64, z: bv6)
    ensures IsSet(x ^ y, z) == Plus(IsSet(x, z), IsSet(y, z))
  {
  }

  lemma XorBits(a: Lane, b: Lane, z: bv6)
    ensures IsSet(Xor(a, b).word, z) == Plus(IsSet(a.word, z), IsSet(b.word, z))
  {
    hide IsSet, Plus;
    RawXor(a.word, b.word, z);
  }

  lemma RawAndNot(x: bv64, y: bv64, z: bv6)
    ensures IsSet(!x & y, z) == (!IsSet(x, z) && IsSet(y, z))
  {
  }

  lemma AndNotBits(a: Lane, b: Lane, z: bv6)
    ensures IsSet(AndNot(a, b).word, z) == (!IsSet(a.word, z) && IsSet(b.word, z))
  {
    hide IsSet;
    RawAndNot(a.word, b.word, z);
  }

  lemma RotateBits(a: Lane, n: nat, z: bv6)
    requires n < 64
    ensures IsSet(RotateLeft(a, n).word, z) == IsSet(a.word, z - (n as bv6))
  {
    hide Bit, RotateWord;
    RotateMovesBits(a.word, n as bv6, z);
  }

  lemma AssembledBits(o0: bool, o1: bool, o2: bool, o3: bool, o4: bool, o5: bool, o6: bool, z: bv6)
    ensures IsSet(Assemble(o0, o1, o2, o3, o4, o5, o6), z) == Spread(o0, o1, o2, o3, o4, o5, o6, z)
  {
  }

  lemma ConstantBits(n: nat, z: bv6)
    requires n < 24
    ensures IsSet(RC(n), z) == ConstantBit(n, z)
  {
    hide IsSet, RC, RegisterAt, Shift7, Shift, Assemble, Spread;
    RoundConstants(n);
    var s := RegisterAt(n);
    var s1 := Shift(s); var s2 := Shift(s1); var s3 := Shift(s2); var s4 := Shift(s3); var s5 := Shift(s4);
    AssembledBits(s.b0, s1.b0, s2.b0, s3.b0, s4.b0, s5.b0, Shift(s5).b0, z);
  }

  // ----- lanes as bits -----

  function CubeOf(a: Lanes): Cube {
    (x: Coord, y: Coord, z: bv6) => IsSet(At(a, x, y).word, z)
  }

  /** The lanes hold the bits of the state array. */
  ghost predicate Shows(a: Lanes, c: Cube) {
    forall x: Coord, y: Coord, z: bv6 :: c(x, y, z) == IsSet(At(a, x, y).word, z)
  }

  lemma ParityBits(a: Lanes, c: Cube, x: Coord, z: bv6)
    requires Shows(a, c)
    ensures IsSet(Parity(a, x).word, z) == Odd(c, x, z)
  {
    hide IsSet, Xor;
    var s1 := Xor(At(a, x, 0), At(a, x, 1));
    var s2 := Xor(s1, At(a, x, 2));
    var s3 := Xor(s2, At(a, x, 3));
    XorBits(At(a, x, 0), At(a, x, 1), z);
    XorBits(s1, At(a, x, 2), z);
    XorBits(s2, At(a, x, 3), z);
    XorBits(s3, At(a, x, 4), z);
  }

  lemma ThetaBits(a: Lanes, c: Cube, x: Coord, y: Coord, z: bv6)
    requires Shows(a, c)
    ensures IsSet(At(Theta(a), x, y).word, z) == ThetaBit(c, x, y, z)
  {
    hide IsSet, Xor, RotateLeft, Parity, Odd, At, Build;
    BuildAt((x: Coord, y: Coord) => ThetaLane(a, x, y));
    IndexIsMod(x - 1);
    IndexIsMod(x + 1);
    var l, r := Parity(a, Index1(x - 1)), Parity(a, Index1(x + 1));
    ParityBits(a, c, Index1(x - 1), z);
    ParityBits(a, c, Index1(x + 1), z - 1);
    RotateBits(r, 1, z);
    XorBits(l, RotateLeft(r, 1), z);
    XorBits(At(a, x, y), Effect(a, x), z);
  }

  lemma RhoBits(a: Lanes, c: Cube, x: Coord, y: Coord, z: bv6)
    requires Shows(a, c)
    ensures IsSet(At(Rho(a), x, y).word, z) == RhoBit(c, x, y, z)
  {
    hide IsSet, RotateLeft, At, Build;
    BuildAt((x: Coord, y: Coord) => RotateLeft(At(a, x, y), R(Pos(x, y))));
    RotateBits(At(a, x, y), R(Pos(x, y)), z);
  }

  lemma PiBits(a: Lanes, c: Cube, x: Coord, y: Coord, z: bv6)
    requires Shows(a, c)
    ensures IsSet(At(Pi(a), x, y).word, z) == PiBit(c, x, y, z)
  {
    hide IsSet, At, Build;
    BuildAt((x: Coord, y: Coord) => At(a, Index1(x + 3 * y), x));
    IndexIsMod(x + 3 * y);
  }

  lemma ChiBits(a: Lanes, c: Cube, x: Coord, y: Coord, z: bv6)
    requires Shows(a, c)
    ensures IsSet(At(Chi(a), x, y).word, z) == ChiBit(c, x, y, z)
  {
    hide IsSet, Xor, AndNot, At, Build;
    BuildAt((x: Coord, y: Coord) => ChiLane(a, x, y));
    IndexIsMod(x + 1);
    IndexIsMod(x + 2);
    var l, r := At(a, Index1(x + 1), y), At(a, Index1(x + 2), y);
    AndNotBits(l, r, z);
    XorBits(At(a, x, y), AndNot(l, r), z);
  }

  lemma IotaBits(a: Lanes, c: Cube, n: nat, x: Coord, y: Coord, z: bv6)
    requires n < 24 && Shows(a, c)
    ensures IsSet(At(Iota(a, n), x, y).word, z) == IotaBit(c, n, x, y, z)
  {
    hide IsSet, Xor, RC, ConstantBit;
    if x == 0 && y == 0 {
      XorBits(a[0], Lane(RC(n)), z);
      ConstantBits(n, z);
      assert At(a, 0, 0) == a[0];
    }
  }

  // ----- the permutation -----

  lemma RoundBits(a: Lanes, c: Cube, n: nat)
    requires n < 24 && Shows(a, c)
    ensures Shows(Round(a, n), RoundCube(c, n))
  {
    hide IsSet, At, Theta, Rho, Pi, Chi, Iota, ThetaBit, RhoBit, PiBit, ChiBit, IotaBit;
    var theta: Cube := (x: Coord, y: Coord, z: bv6) => ThetaBit(c, x, y, z);
    var rho: Cube := (x: Coord, y: Coord, z: bv6) => RhoBit(theta, x, y, z);
    var pi: Cube := (x: Coord, y: Coord, z: bv6) => PiBit(rho, x, y, z);
    var chi: Cube := (x: Coord, y: Coord, z: bv6) => ChiBit(pi, x, y, z);
    forall x: Coord, y: Coord, z: bv6 ensures theta(x, y, z) == IsSet(At(Theta(a), x, y).word, z) {
      ThetaBits(a, c, x, y, z);
    }
    forall x: Coord, y: Coord, z: bv6 ensures rho(x, y, z) == IsSet(At(Rho(Theta(a)), x, y).word, z) {
      RhoBits(Theta(a), theta, x, y, z);
    }
    forall x: Coord, y: Coord, z: bv6 ensures pi(x, y, z) == IsSet(At(Pi(Rho(Theta(a))), x, y).word, z) {
      PiBits(Rho(Theta(a)), rho, x, y, z);
    }
    forall x: Coord, y: Coord, z: bv6 ensures chi(x, y, z) == IsSet(At(Chi(Pi(Rho(Theta(a)))), x, y).word, z) {
      ChiBits(Pi(Rho(Theta(a))), pi, x, y, z);
    }
    forall x: Coord, y: Coord, z: bv6
      ensures RoundCube(c, n)(x, y, z) == IsSet(At(Round(a, n), x, y).word, z)
    {
      IotaBits(Chi(Pi(Rho(Theta(a)))), chi, n, x, y, z);
    }
  }

  lemma {:induction false} RoundsBits(a: Lanes, n: nat)
    requires n <= 24
    ensures Shows(Rounds(a, n), RoundsCube(CubeOf(a), n))
  {
    hide IsSet, At, Round, RoundCube;
    if n > 0 {
      RoundsBits(a, n - 1);
      RoundBits(Rounds(a, n - 1), RoundsCube(CubeOf(a), n - 1), n - 1);
    }
  }

  /** Every bit of the permuted lanes is the one that the 24 rounds on bits give. */
  lemma PermuteBits(a: Lanes, x: Coord, y: Coord, z: bv6)
    ensures IsSet(At(Permute(a), x, y).word, z) == RoundsCube(CubeOf(a), 24)(x, y, z)
  {
    hide IsSet, At, Rounds, RoundsCube;
    RoundsBits(a, 24);
  }
}
