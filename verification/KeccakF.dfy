/** The Keccak-f[1600] permutation: the unrolled in-place round against the step
    mappings of sections 3.2 and 3.3 of FIPS 202. */
module KeccakF {
  datatype Lane = Lane(word: bv64)
  type Coord = x: int | 0 <= x < 5
  type Lanes = s: seq<Lane> | |s| == 25 witness seq(25, _ => Lane(0))

  /** Round constants. */
  function RC(n: nat): bv64
    requires n < 24
  {
    match n
    case 0 => 0x0000000000000001 case 1 => 0x0000000000008082 case 2 => 0x800000000000808a
    case 3 => 0x8000000080008000 case 4 => 0x000000000000808b case 5 => 0x0000000080000001
    case 6 => 0x8000000080008081 case 7 => 0x8000000000008009 case 8 => 0x000000000000008a
    case 9 => 0x0000000000000088 case 10 => 0x0000000080008009 case 11 => 0x000000008000000a
    case 12 => 0x000000008000808b case 13 => 0x800000000000008b case 14 => 0x8000000000008089
    case 15 => 0x8000000000008003 case 16 => 0x8000000000008002 case 17 => 0x8000000000000080
    case 18 => 0x000000000000800a case 19 => 0x800000008000000a case 20 => 0x8000000080008081
    case 21 => 0x8000000000008080 case 22 => 0x0000000080000001 case _ => 0x8000000080008008
  }

  /** Rotation distances. */
  function R(k: nat): nat
    requires k < 25
  {
    match k
    case 0 => 0 case 1 => 1 case 2 => 62 case 3 => 28 case 4 => 27
    case 5 => 36 case 6 => 44 case 7 => 6 case 8 => 55 case 9 => 20
    case 10 => 3 case 11 => 10 case 12 => 43 case 13 => 25 case 14 => 39
    case 15 => 41 case 16 => 45 case 17 => 15 case 18 => 21 case 19 => 8
    case 20 => 18 case 21 => 2 case 22 => 61 case 23 => 56 case _ => 14
  }

  // ----- words -----

  /** The distances are masked to six bits, so `-n` is the rest of the word. */
  function RotateWord(x: bv64, n: bv6): bv64 {
    OrWord(Up(x, n), Down(x, -n))
  }

  function OrWord(x: bv64, y: bv64): bv64 { x | y }

  function Up(x: bv64, n: bv6): bv64 { x << n }

  function Down(x: bv64, n: bv6): bv64 { x >> n }

  function Bit(x: bv64, z: bv6): bv64 {
    (x >> z) & 1
  }

  lemma RawUp(x: bv64, n: bv6, z: bv6)
    requires z >= n
    ensures Bit(x << n, z) == Bit(x, z - n)
  {
  }

  lemma RawDown(x: bv64, n: bv6, z: bv6)
    requires z <= 63 - n
    ensures Bit(x >> n, z) == Bit(x, z + n)
  {
  }

  lemma UpKeeps(x: bv64, n: bv6, z: bv6)
    requires z >= n
    ensures Bit(Up(x, n), z) == Bit(x, z - n)
  {
    hide Bit;
    RawUp(x, n, z);
  }

  lemma UpClears(x: bv64, n: bv6, z: bv6)
    requires z < n
    ensures Bit(Up(x, n), z) == 0
  {
  }

  lemma DownKeeps(x: bv64, n: bv6, z: bv6)
    requires z <= 63 - n
    ensures Bit(Down(x, n), z) == Bit(x, z + n)
  {
    hide Bit;
    RawDown(x, n, z);
  }

  lemma DownClears(x: bv64, n: bv6, z: bv6)
    requires z > 63 - n
    ensures Bit(Down(x, n), z) == 0
  {
  }

  lemma BitOr(x: bv64, y: bv64, z: bv6)
    ensures Bit(x, z) == 0 ==> Bit(OrWord(x, y), z) == Bit(y, z)
    ensures Bit(y, z) == 0 ==> Bit(OrWord(x, y), z) == Bit(x, z)
  {
  }

  lemma NoRotation(x: bv64)
    ensures RotateWord(x, 0) == x
  {
  }

  /** Bit `z` of the rotated word is bit `z - n` of the word, modulo 64. */
  lemma RotateMovesBits(x: bv64, n: bv6, z: bv6)
    ensures Bit(RotateWord(x, n), z) == Bit(x, z - n)
  {
    hide Bit, Up, Down, OrWord;
    if n == 0 {
      NoRotation(x);
    } else if z < n {
      BitOr(Up(x, n), Down(x, -n), z);
      UpClears(x, n, z);
      DownKeeps(x, -n, z);
    } else {
      BitOr(Up(x, n), Down(x, -n), z);
      UpKeeps(x, n, z);
      DownClears(x, -n, z);
    }
  }

  function XorWord(x: bv64, y: bv64): bv64 { x ^ y }

  function Xor(a: Lane, b: Lane): Lane {
    Lane(XorWord(a.word, b.word))
  }

  function AndNot(a: Lane, b: Lane): Lane {
    Lane(!a.word & b.word)
  }

  function RotateLeft(a: Lane, n: nat): Lane {
    Lane(RotateWord(a.word, (n % 64) as bv6))
  }

  // ----- coordinates -----

  function Pos(x: Coord, y: Coord): (k: nat)
    ensures k < 25
  {
    x + 5 * y
  }

  /** Coordinates may be given outside 0..4; they wrap around. */
  function Index1(x: int): (r: Coord)
    decreases if x < 0 then -x else 0
  {
    if x < 0 then Index1(x + 5) else x % 5
  }

  lemma {:induction false} IndexIsMod(x: int)
    ensures Index1(x) == x % 5
    decreases if x < 0 then -x else 0
  {
    if x < 0 {
      IndexIsMod(x + 5);
    }
  }

  lemma IndexInRange()
    ensures forall x: Coord :: Index1(x) == x
  {
  }

  function Index(x: int, y: int): (r: nat)
    ensures r == Pos(Index1(x), Index1(y))
  {
    Index1(x) + 5 * Index1(y)
  }

  function At(a: Lanes, x: Coord, y: Coord): Lane {
    a[Pos(x, y)]
  }

  function Build(f: (Coord, Coord) -> Lane): Lanes {
    seq(25, k requires 0 <= k < 25 => f(k % 5, k / 5))
  }

  lemma BuildAt(f: (Coord, Coord) -> Lane)
    ensures forall x: Coord, y: Coord {:trigger At(Build(f), x, y)} :: At(Build(f), x, y) == f(x, y)
  {
    forall x: Coord, y: Coord ensures At(Build(f), x, y) == f(x, y) {
      assert (x + 5 * y) / 5 == y && (x + 5 * y) % 5 == x;
    }
  }

  lemma SameLanes(a: Lanes, b: Lanes)
    requires forall x: Coord, y: Coord :: At(a, x, y) == At(b, x, y)
    ensures a == b
  {
    forall k | 0 <= k < 25 ensures a[k] == b[k] {
      assert At(a, k % 5, k / 5) == At(b, k % 5, k / 5);
      assert Pos(k % 5, k / 5) == k;
    }
  }

  /** `A[index(x, y)] = v`. */
  method SetLane(A: array<Lane>, x: int, y: int, v: Lane)
    requires A.Length == 25
    modifies A
    ensures forall i: Coord, j: Coord ::
              At(A[..], i, j) == if i == Index1(x) && j == Index1(y) then v else At(old(A[..]), i, j)
  {
    A[Index(x, y)] := v;
  }

  function GetLane(A: array<Lane>, x: int, y: int): (v: Lane)
    requires A.Length == 25
    reads A
    ensures v == At(A[..], Index1(x), Index1(y))
  {
    A[Index(x, y)]
  }

  // ----- the step mappings, each computed from the whole old state -----

  function Parity(a: Lanes, x: Coord): Lane {
    Xor(Xor(Xor(Xor(At(a, x, 0), At(a, x, 1)), At(a, x, 2)), At(a, x, 3)), At(a, x, 4))
  }

  function Effect(a: Lanes, x: Coord): Lane {
    Xor(Parity(a, Index1(x - 1)), RotateLeft(Parity(a, Index1(x + 1)), 1))
  }

  function ThetaLane(a: Lanes, x: Coord, y: Coord): Lane {
    Xor(At(a, x, y), Effect(a, x))
  }

  function Theta(a: Lanes): Lanes {
    Build((x: Coord, y: Coord) => ThetaLane(a, x, y))
  }

  function Rho(a: Lanes): Lanes {
    Build((x: Coord, y: Coord) => RotateLeft(At(a, x, y), R(Pos(x, y))))
  }

  function Pi(a: Lanes): Lanes {
    Build((x: Coord, y: Coord) => At(a, Index1(x + 3 * y), x))
  }

  function ChiLane(a: Lanes, x: Coord, y: Coord): Lane {
    Xor(At(a, x, y), AndNot(At(a, Index1(x + 1), y), At(a, Index1(x + 2), y)))
  }

  function Chi(a: Lanes): Lanes {
    Build((x: Coord, y: Coord) => ChiLane(a, x, y))
  }

  function Iota(a: Lanes, n: nat): Lanes
    requires n < 24
  {
    a[0 := Xor(a[0], Lane(RC(n)))]
  }

  function Round(a: Lanes, n: nat): Lanes
    requires n < 24
  {
    Iota(Chi(Pi(Rho(Theta(a)))), n)
  }

  function Rounds(a: Lanes, n: nat): Lanes
    requires n <= 24
  {
    if n == 0 then a else Round(Rounds(a, n - 1), n - 1)
  }

  /** Keccak-f[1600]: 24 rounds. */
  function Permute(a: Lanes): Lanes {
    Rounds(a, 24)
  }

  // ----- the constants of the step mappings -----

  /** Move `t` of the walk of rho is at (Walk(t), Walk(t + 1)). */
  function Walk(t: nat): Coord
    requires t <= 24
  {
    match t
    case 0 => 1 case 1 => 0 case 2 => 2 case 3 => 1 case 4 => 2 case 5 => 3 case 6 => 3 case 7 => 0 case 8 => 1
    case 9 => 3 case 10 => 1 case 11 => 4 case 12 => 4 case 13 => 0 case 14 => 3 case 15 => 4 case 16 => 3 case 17 => 2
    case 18 => 2 case 19 => 0 case 20 => 4 case 21 => 2 case 22 => 4 case 23 => 1 case _ => 1
  }

  /** The move on which the walk is at position `k`. */
  function Visit(k: nat): nat
    requires k < 25
  {
    match k
    case 0 => 0 case 1 => 0 case 2 => 18 case 3 => 6 case 4 => 12 case 5 => 7 case 6 => 23 case 7 => 2 case 8 => 9
    case 9 => 22 case 10 => 1 case 11 => 3 case 12 => 17 case 13 => 16 case 14 => 20 case 15 => 13 case 16 => 8
    case 17 => 4
    case 18 => 5 case 19 => 15 case 20 => 19 case 21 => 10 case 22 => 21 case 23 => 14 case _ => 11
  }

  /** Triangular numbers modulo 64. */
  function Triangle(t: nat): nat
    requires t < 24
  {
    match t
    case 0 => 1 case 1 => 3 case 2 => 6 case 3 => 10 case 4 => 15 case 5 => 21 case 6 => 28 case 7 => 36 case 8 => 45
    case 9 => 55 case 10 => 2 case 11 => 14 case 12 => 27 case 13 => 41 case 14 => 56 case 15 => 8 case 16 => 25
    case 17 => 43
    case 18 => 62 case 19 => 18 case 20 => 39 case 21 => 61 case 22 => 20 case _ => 44
  }

  /** The walk goes from (1, 0) by steps from (x, y) to (y, 2x + 3y) and is at no
      position twice. */
  lemma RhoWalk(t: nat)
    requires t < 24
    ensures Walk(0) == 1 && Walk(1) == 0 && (t < 23 ==> Walk(t + 2) == (2 * Walk(t) + 3 * Walk(t + 1)) % 5)
    ensures Visit(Pos(Walk(t), Walk(t + 1))) == t && Pos(Walk(t), Walk(t + 1)) != 0
  {
  }

  lemma Triangles(t: nat)
    requires t < 24
    ensures Triangle(0) == 1 && (t < 23 ==> Triangle(t + 1) == (Triangle(t) + t + 2) % 64)
  {
  }

  /** The rotation distances are the triangular numbers along the walk; the
      origin, where it never is, is not rotated. */
  lemma RhoOffsets(t: nat)
    requires t < 24
    ensures R(0) == 0 && R(Pos(Walk(t), Walk(t + 1))) == Triangle(t)
  {
  }

  /** The linear feedback shift register behind the round constants. */
  datatype Register = Register(b0: bool, b1: bool, b2: bool, b3: bool, b4: bool, b5: bool, b6: bool, b7: bool)

  function Shift(s: Register): Register {
    Register(s.b7, s.b0, s.b1, s.b2, s.b3 != s.b7, s.b4 != s.b7, s.b5 != s.b7, s.b6)
  }

  function Shift7(s: Register): Register {
    Shift(Shift(Shift(Shift(Shift(Shift(Shift(s)))))))
  }

  function OutputBit(b: bool, v: bv64): bv64 {
    if b then v else 0
  }

  /** A word of bits at the places 2^j - 1. */
  function Assemble(o0: bool, o1: bool, o2: bool, o3: bool, o4: bool, o5: bool, o6: bool): bv64 {
    OutputBit(o0, 0x1) | OutputBit(o1, 0x2) | OutputBit(o2, 0x8) | OutputBit(o3, 0x80)
    | OutputBit(o4, 0x8000) | OutputBit(o5, 0x8000_0000) | OutputBit(o6, 0x8000_0000_0000_0000)
  }

  /** Bit 2^j - 1 of the constant is the output after `j` more steps. */
  function ConstantFrom(s: Register): bv64 {
    var s1 := Shift(s); var s2 := Shift(s1); var s3 := Shift(s2); var s4 := Shift(s3); var s5 := Shift(s4);
    Assemble(s.b0, s1.b0, s2.b0, s3.b0, s4.b0, s5.b0, Shift(s5).b0)
  }

  /** The register at the beginning of round `n`. */
  function RegisterAt(n: nat): Register
    requires n < 24
  {
    var (T, F) := (true, false);
    match n
    case 0 => Register(T, F, F, F, F, F, F, F)
    case 1 => Register(F, F, F, F, F, F, F, T)
    case 2 => Register(F, F, F, T, T, F, T, T)
    case 3 => Register(F, T, F, T, T, F, F, F)
    case 4 => Register(T, T, T, T, T, F, T, T)
    case 5 => Register(T, F, F, T, F, F, F, F)
    case 6 => Register(T, F, T, F, T, T, F, F)
    case 7 => Register(T, T, T, T, F, F, T, F)
    case 8 => Register(F, T, F, T, F, F, T, T)
    case 9 => Register(F, F, F, F, T, T, T, F)
    case 10 => Register(T, F, F, F, F, F, T, F)
    case 11 => Register(F, F, T, T, F, T, T, T)
    case 12 => Register(T, F, T, F, T, F, T, T)
    case 13 => Register(T, F, T, T, F, F, T, T)
    case 14 => Register(T, T, F, F, F, T, T, F)
    case 15 => Register(T, T, F, T, F, T, F, T)
    case 16 => Register(F, T, F, T, F, T, F, T)
    case 17 => Register(F, T, F, T, F, T, F, F)
    case 18 => Register(F, T, F, F, T, T, T, T)
    case 19 => Register(F, F, F, T, F, T, T, T)
    case 20 => Register(T, T, T, F, T, T, F, F)
    case 21 => Register(F, T, T, T, T, T, F, F)
    case 22 => Register(T, T, F, T, F, F, F, F)
    case _ => Register(F, F, T, F, F, F, T, F)
  }

  /** Seven outputs of the register at once. */
  lemma SevenOutputs(s: Register)
    ensures var p := s.b5 != s.b7;
            var q := (s.b4 != s.b7) != s.b6;
            var r := ((s.b3 != s.b7) != s.b6) != p;
            ConstantFrom(s) == Assemble(s.b0, s.b7, s.b6, p, q, r, ((s.b2 != s.b6) != p) != q)
  {
    hide Assemble;
  }

  lemma Registers(n: nat)
    requires n < 23
    ensures RegisterAt(n + 1) == Shift7(RegisterAt(n))
  {
    match n
    case 0 => case 1 => case 2 => case 3 => case 4 => case 5 => case 6 => case 7 => case 8 => case 9 =>
    case 10 => case 11 => case 12 => case 13 => case 14 => case 15 => case 16 => case 17 => case 18 => case 19 =>
    case 20 => case 21 => case _ =>
  }

  lemma Constants(n: nat)
    requires n < 24
    ensures RC(n) == ConstantFrom(RegisterAt(n))
  {
    hide ConstantFrom;
    SevenOutputs(RegisterAt(n));
  }

  lemma RoundConstants(n: nat)
    requires n < 24
    ensures RegisterAt(0) == Register(true, false, false, false, false, false, false, false)
    ensures n < 23 ==> RegisterAt(n + 1) == Shift7(RegisterAt(n))
    ensures RC(n) == ConstantFrom(RegisterAt(n))
  {
    hide RC, ConstantFrom, Shift7;
    Constants(n);
    if n < 23 {
      Registers(n);
    }
  }

  // ----- the unrolled round -----

  method ColumnParity(A: array<Lane>, C: array<Lane>, x: Coord)
    requires A.Length == 25 && C.Length == 5 && A != C
    modifies C
    ensures C[x] == Parity(A[..], x)
    ensures forall i: Coord :: i != x ==> C[i] == old(C[i])
  {
    hide Xor, At, Pos, Index1;
    IndexInRange();
    var low := Xor(Xor(GetLane(A, x, 0), GetLane(A, x, 1)), GetLane(A, x, 2));
    C[x] := Xor(Xor(low, GetLane(A, x, 3)), GetLane(A, x, 4));
  }

  /** The state while the columns below `n` are already updated. */
  predicate ThetaUpTo(a: Lanes, now: Lanes, n: nat) {
    forall x: Coord, y: Coord :: At(now, x, y) == if x < n then ThetaLane(a, x, y) else At(a, x, y)
  }

  method ThetaStep(A: array<Lane>, D: array<Lane>, x: Coord, y: Coord, ghost a: Lanes)
    requires A.Length == 25 && D.Length == 5 && A != D && D[x] == Effect(a, x) && At(A[..], x, y) == At(a, x, y)
    modifies A
    ensures forall i: Coord, j: Coord ::
              At(A[..], i, j) == if i == x && j == y then ThetaLane(a, x, y) else At(old(A[..]), i, j)
  {
    hide Xor, Effect, At, Pos, Index1;
    IndexInRange();
    SetLane(A, x, y, Xor(GetLane(A, x, y), D[x]));
  }

  method ColumnEffect(C: array<Lane>, D: array<Lane>, x: Coord, ghost a: Lanes)
    requires C.Length == 5 && D.Length == 5 && C != D && forall i: Coord :: C[i] == Parity(a, i)
    modifies D
    ensures D[x] == Effect(a, x)
  {
    hide Xor, RotateLeft, Parity, Index1;
    D[x] := Xor(C[Index1(x - 1)], RotateLeft(C[Index1(x + 1)], 1));
  }

  /** Column `x`: its effect comes from the saved parities, so the columns that
      are already updated do not matter. */
  method ThetaColumn(A: array<Lane>, C: array<Lane>, D: array<Lane>, x: Coord, ghost a: Lanes)
    requires A.Length == 25 && C.Length == 5 && D.Length == 5 && A != C && C != D && A != D
    requires (forall i: Coord :: C[i] == Parity(a, i)) && ThetaUpTo(a, A[..], x)
    modifies A, D
    ensures ThetaUpTo(a, A[..], x + 1)
  {
    hide Effect, At, ThetaLane;
    ColumnEffect(C, D, x, a);
    ThetaStep(A, D, x, 0, a);
    ThetaStep(A, D, x, 1, a);
    ThetaStep(A, D, x, 2, a);
    ThetaStep(A, D, x, 3, a);
    ThetaStep(A, D, x, 4, a);
  }

  predicate RhoPiUpTo(a: Lanes, b: Lanes, n: nat) {
    forall x: Coord, y: Coord :: Index1(x + 3 * y) < n ==> At(b, x, y) == At(Pi(Rho(a)), x, y)
  }

  lemma ModIs(v: int, q: int, r: Coord)
    requires v == 5 * q + r
    ensures Index1(v) == r
  {
    IndexIsMod(v);
  }

  lemma DivIs(v: int) returns (q: int)
    ensures v == 5 * q + Index1(v)
  {
    IndexIsMod(v);
    q := v / 5;
  }

  /** Scattering lane (s, x) to (x, 2s + 3x) is gathering from (x + 3y, x). */
  lemma ScatterIsGather(s: Coord, x: Coord, y: Coord)
    ensures Index1(x + 3 * y) == s <==> y == Index1(s * 2 + 3 * x)
  {
    hide Index1;
    if Index1(x + 3 * y) == s {
      var q := DivIs(x + 3 * y);
      ModIs(s * 2 + 3 * x, x + y - 2 * q, y);
    }
    if y == Index1(s * 2 + 3 * x) {
      var r := DivIs(s * 2 + 3 * x);
      ModIs(x + 3 * y, s + 2 * x - 3 * r, s);
    }
  }

  lemma PiRhoAt(a: Lanes, s: Coord, x: Coord)
    ensures At(Pi(Rho(a)), x, Index1(s * 2 + 3 * x)) == RotateLeft(At(a, s, x), R(Pos(s, x)))
  {
    hide RotateLeft, At, Pos, Index1, Build, Pos, Index1;
    ScatterIsGather(s, x, Index1(s * 2 + 3 * x));
    BuildAt((x: Coord, y: Coord) => At(Rho(a), Index1(x + 3 * y), x));
    BuildAt((x: Coord, y: Coord) => RotateLeft(At(a, x, y), R(Pos(x, y))));
  }

  method RhoPiLane(A: array<Lane>, B: array<Lane>, x: Coord, y: Coord)
    requires A.Length == 25 && B.Length == 25 && A != B
    modifies B
    ensures forall i: Coord, j: Coord ::
              At(B[..], i, j) == if i == y && j == Index1(x * 2 + 3 * y) then At(Pi(Rho(A[..])), i, j)
                                 else At(old(B[..]), i, j)
  {
    hide RotateLeft, Pi, Rho, At, Pos, Index1;
    IndexInRange();
    PiRhoAt(A[..], x, y);
    SetLane(B, y, x * 2 + 3 * y, RotateLeft(GetLane(A, x, y), R(Index(x, y))));
  }

  method RhoPiColumn(A: array<Lane>, B: array<Lane>, x: Coord)
    requires A.Length == 25 && B.Length == 25 && A != B && RhoPiUpTo(A[..], B[..], x)
    modifies B
    ensures RhoPiUpTo(A[..], B[..], x + 1)
  {
    hide Pi, Rho, At, Pos, Index1;
    RhoPiLane(A, B, x, 0);
    RhoPiLane(A, B, x, 1);
    RhoPiLane(A, B, x, 2);
    RhoPiLane(A, B, x, 3);
    RhoPiLane(A, B, x, 4);
    forall i: Coord, j: Coord | Index1(i + 3 * j) < x + 1 ensures At(B[..], i, j) == At(Pi(Rho(A[..])), i, j) {
      ScatterIsGather(x, i, j);
    }
  }

  predicate ChiUpTo(b: Lanes, now: Lanes, n: nat) {
    forall x: Coord, y: Coord :: x < n ==> At(now, x, y) == ChiLane(b, x, y)
  }

  method ChiStep(A: array<Lane>, B: array<Lane>, x: Coord, y: Coord)
    requires A.Length == 25 && B.Length == 25 && A != B
    modifies A
    ensures forall i: Coord, j: Coord ::
              At(A[..], i, j) == if i == x && j == y then ChiLane(B[..], x, y) else At(old(A[..]), i, j)
  {
    hide Xor, AndNot, At, Pos, Index1;
    IndexInRange();
    SetLane(A, x, y, Xor(GetLane(B, x, y), AndNot(GetLane(B, x + 1, y), GetLane(B, x + 2, y))));
  }

  method ChiColumn(A: array<Lane>, B: array<Lane>, x: Coord)
    requires A.Length == 25 && B.Length == 25 && A != B && ChiUpTo(B[..], A[..], x)
    modifies A
    ensures ChiUpTo(B[..], A[..], x + 1)
  {
    hide At, ChiLane;
    ChiStep(A, B, x, 0);
    ChiStep(A, B, x, 1);
    ChiStep(A, B, x, 2);
    ChiStep(A, B, x, 3);
    ChiStep(A, B, x, 4);
  }

  lemma RhoPiDone(a: Lanes, b: Lanes)
    requires RhoPiUpTo(a, b, 5)
    ensures b == Pi(Rho(a))
  {
    hide Pi, Rho, At, Pos, Index1;
    SameLanes(b, Pi(Rho(a)));
  }

  method ThetaInPlace(A: array<Lane>, C: array<Lane>, D: array<Lane>)
    requires A.Length == 25 && C.Length == 5 && D.Length == 5 && A != C && A != D && C != D
    modifies A, C, D
    ensures A[..] == Theta(old(A[..]))
  {
    hide Xor, Parity, Effect, ThetaLane, Build, At, Pos, Index1;
    ghost var a := A[..];
    ColumnParity(A, C, 0);
    ColumnParity(A, C, 1);
    ColumnParity(A, C, 2);
    ColumnParity(A, C, 3);
    ColumnParity(A, C, 4);
    ThetaColumn(A, C, D, 0, a);
    ThetaColumn(A, C, D, 1, a);
    ThetaColumn(A, C, D, 2, a);
    ThetaColumn(A, C, D, 3, a);
    ThetaColumn(A, C, D, 4, a);
    BuildAt((x: Coord, y: Coord) => ThetaLane(a, x, y));
    SameLanes(A[..], Theta(a));
  }

  method ChiInPlace(A: array<Lane>, B: array<Lane>)
    requires A.Length == 25 && B.Length == 25 && A != B
    modifies A
    ensures A[..] == Chi(B[..])
  {
    hide ChiLane, At, Build;
    ghost var b := B[..];
    ChiColumn(A, B, 0);
    ChiColumn(A, B, 1);
    ChiColumn(A, B, 2);
    ChiColumn(A, B, 3);
    ChiColumn(A, B, 4);
    BuildAt((x: Coord, y: Coord) => ChiLane(b, x, y));
    SameLanes(A[..], Chi(b));
  }

  method UnrolledRound(A: array<Lane>, B: array<Lane>, C: array<Lane>, D: array<Lane>, n: nat)
    requires A.Length == 25 && B.Length == 25 && C.Length == 5 && D.Length == 5 && n < 24
    requires A != B && A != C && A != D && B != C && B != D && C != D
    modifies A, B, C, D
    ensures A[..] == Round(old(A[..]), n)
  {
    hide Xor, Chi, Pi, Rho, Theta, At, Pos, Index1;
    ThetaInPlace(A, C, D);
    RhoPiColumn(A, B, 0);
    RhoPiColumn(A, B, 1);
    RhoPiColumn(A, B, 2);
    RhoPiColumn(A, B, 3);
    RhoPiColumn(A, B, 4);
    RhoPiDone(A[..], B[..]);
    ChiInPlace(A, B);
    A[0] := Xor(A[0], Lane(RC(n)));
  }

  /** The permutation in place, whatever the scratch arrays hold. */
  method PermuteInPlace(A: array<Lane>)
    requires A.Length == 25
    modifies A
    ensures A[..] == Permute(old(A[..]))
  {
    hide Round;
    var B, C, D := new Lane[25], new Lane[5], new Lane[5];
    for n := 0 to 24
      invariant A[..] == Rounds(old(A[..]), n)
    {
      UnrolledRound(A, B, C, D, n);
    }
  }
}
