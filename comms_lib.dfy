/**
 * The table-driven and bit-level helpers of the communications library:
 * the MCS index table (modulation order and code rate per index), the
 * beamforming-algorithm names, and the Hadamard sign function.
 */
module CommsLib {

  import opened Wrappers

  /** A C++ `int`. */
  newtype int32 = x: int | -0x8000_0000 <= x < 0x8000_0000

  const TwoTo32: nat := 0x1_0000_0000

  // ---------------------------------------------------------------------
  // MCS table
  // ---------------------------------------------------------------------

  /** One MCS table entry: (modulation order in bits per symbol, code rate times 1024). */
  datatype McsEntry = McsEntry(modOrderBits: nat, codeRate: nat)

  /** The 32-entry MCS table used by the PHY. */
  const MCS: seq<McsEntry> := [
    McsEntry(2, 120), McsEntry(2, 157), McsEntry(2, 193), McsEntry(2, 251),
    McsEntry(2, 308), McsEntry(2, 379), McsEntry(2, 449), McsEntry(2, 526),
    McsEntry(2, 602), McsEntry(2, 679), McsEntry(4, 340), McsEntry(4, 378),
    McsEntry(4, 434), McsEntry(4, 490), McsEntry(4, 553), McsEntry(4, 616),
    McsEntry(4, 658), McsEntry(6, 438), McsEntry(6, 466), McsEntry(6, 517),
    McsEntry(6, 567), McsEntry(6, 616), McsEntry(6, 666), McsEntry(6, 719),
    McsEntry(6, 772), McsEntry(6, 822), McsEntry(6, 873), McsEntry(6, 910),
    McsEntry(6, 948), McsEntry(8, 754), McsEntry(8, 797), McsEntry(8, 841)]

  /** The modulation orders the library knows, with their bits per symbol. */
  datatype ModulationOrder = Bpsk | Qpsk | QaM16 | QaM64 | QaM256

  function ModulationBits(m: ModulationOrder): (bits: nat)
    ensures 1 <= bits <= 8
  {
    match m
    case Bpsk => 1
    case Qpsk => 2
    case QaM16 => 4
    case QaM64 => 6
    case QaM256 => 8
  }

  /** The modulation order whose enumerator value is `bits`, if any. */
  function ModulationOfBits(bits: nat): (m: Option<ModulationOrder>)
    ensures m.Some? ==> ModulationBits(m.value) == bits
    ensures bits in {1, 2, 4, 6, 8} <==> m.Some?
  {
    if bits == 1 then Some(Bpsk)
    else if bits == 2 then Some(Qpsk)
    else if bits == 4 then Some(QaM16)
    else if bits == 6 then Some(QaM64)
    else if bits == 8 then Some(QaM256)
    else None
  }

  /** Band of MCS indices that use each modulation order. */
  function McsModOrderBand(mcsIndex: nat): (bits: nat)
  {
    if mcsIndex <= 9 then 2 else if mcsIndex <= 16 then 4 else if mcsIndex <= 28 then 6 else 8
  }

  function GetCodeRate(mcsIndex: nat): (rate: nat)
    requires mcsIndex < |MCS|
    ensures 120 <= rate <= 948
    ensures rate < 1024
  {
    MCS[mcsIndex].codeRate
  }

  function GetModOrderBits(mcsIndex: nat): (bits: nat)
    requires mcsIndex < |MCS|
    ensures bits == McsModOrderBand(mcsIndex)
    ensures ModulationOfBits(bits).Some? && ModulationOfBits(bits) != Some(Bpsk)
  {
    MCS[mcsIndex].modOrderBits
  }

  /** A higher MCS index never uses a lower modulation order. */
  lemma ModOrderNonDecreasing(i: nat, j: nat)
    requires i <= j < |MCS|
    ensures GetModOrderBits(i) <= GetModOrderBits(j)
  {
  }

  /** Within one modulation order the code rate strictly increases with the index. */
  lemma CodeRateIncreasesWithinOrder(i: nat, j: nat)
    requires i < j < |MCS|
    requires GetModOrderBits(i) == GetModOrderBits(j)
    ensures GetCodeRate(i) < GetCodeRate(j)
  {
  }

  /** Distinct indices carry distinct (order, rate) pairs, so an index is determined by its entry. */
  lemma McsEntriesDistinct(i: nat, j: nat)
    requires i < |MCS| && j < |MCS|
    requires GetModOrderBits(i) == GetModOrderBits(j) && GetCodeRate(i) == GetCodeRate(j)
    ensures i == j
  {
    if i < j {
      CodeRateIncreasesWithinOrder(i, j);
    } else if j < i {
      CodeRateIncreasesWithinOrder(j, i);
    }
  }

  // ---------------------------------------------------------------------
  // Beamforming algorithm names
  // ---------------------------------------------------------------------

  datatype BeamformingAlgorithm = ZF | MMSE | MRC

  /** The enumerator value of each algorithm. */
  function AlgorithmValue(a: BeamformingAlgorithm): (v: nat)
    ensures v < 3
  {
    match a
    case ZF => 0
    case MMSE => 1
    case MRC => 2
  }

  /** The configuration-file name of each algorithm. */
  function AlgorithmName(a: BeamformingAlgorithm): string
  {
    match a
    case ZF => "ZF"
    case MMSE => "MMSE"
    case MRC => "MRC"
  }

  /** Name -> enumerator value, as read from the configuration. */
  const BeamformingStr: map<string, nat> := map["ZF" := 0, "MMSE" := 1, "MRC" := 2]

  /** Parsing a configured name into an algorithm (a name outside the map has none). */
  function ParseBeamforming(name: string): (a: Option<BeamformingAlgorithm>)
    ensures a.Some? <==> name in BeamformingStr
    ensures a.Some? ==> AlgorithmValue(a.value) == BeamformingStr[name]
  {
    if name in BeamformingStr then
      var v := BeamformingStr[name];
      Some(if v == 0 then ZF else if v == 1 then MMSE else MRC)
    else None
  }

  /** The name map and the enumeration agree: every algorithm's name maps to its own value. */
  lemma BeamformingNamesRoundTrip(a: BeamformingAlgorithm)
    ensures AlgorithmName(a) in BeamformingStr
    ensures BeamformingStr[AlgorithmName(a)] == AlgorithmValue(a)
    ensures ParseBeamforming(AlgorithmName(a)) == Some(a)
  {
  }

  // ---------------------------------------------------------------------
  // Hadamard sign function
  // ---------------------------------------------------------------------

  /** The two's-complement bit pattern of a C `int`, as an unsigned 32-bit value. */
  function Unsigned(x: int32): (u: nat)
    ensures u < TwoTo32
    ensures 0 <= x ==> u == x as int
  {
    (x as int) % TwoTo32
  }

  /** Bitwise AND of two naturals, bit by bit from the least significant end. */
  function BitAnd(a: nat, b: nat): (r: nat)
    decreases a
  {
    if a == 0 || b == 0 then 0
    else 2 * BitAnd(a / 2, b / 2) + (a % 2) * (b % 2)
  }

  /** Parity (number of set bits modulo 2) of a natural. */
  function Parity(w: nat): (p: nat)
    ensures p < 2
    decreases w
  {
    if w == 0 then 0 else (w % 2 + Parity(w / 2)) % 2
  }

  /** `Hadamard2(i, j)`: -1 when `i & j` has odd parity and 1 otherwise. */
  function Hadamard2(i: int32, j: int32): (h: int)
    ensures h == 1 || h == -1
  {
    if Parity(BitAnd(Unsigned(i), Unsigned(j))) != 0 then -1 else 1
  }

  lemma {:induction false} BitAndComm(a: nat, b: nat)
    ensures BitAnd(a, b) == BitAnd(b, a)
    decreases a
  {
    if a != 0 && b != 0 {
      BitAndComm(a / 2, b / 2);
    }
  }

  /** The sign matrix is symmetric. */
  lemma HadamardSymmetric(i: int32, j: int32)
    ensures Hadamard2(i, j) == Hadamard2(j, i)
  {
    BitAndComm(Unsigned(i), Unsigned(j));
  }

  /** Row 0 (and by symmetry column 0) is all ones. */
  lemma HadamardZeroRow(j: int32)
    ensures Hadamard2(0, j) == 1
  {
  }

  /** Lower-right entry of each 2x2 block flips the sign of the parent entry. */
  function BlockSign(a: nat, c: nat): (s: int)
    ensures s == 1 || s == -1
  {
    if a == 1 && c == 1 then -1 else 1
  }

  lemma BitAndStep(a: nat, b: nat, c: nat, d: nat)
    requires c < 2 && d < 2
    ensures BitAnd(2 * a + c, 2 * b + d) == 2 * BitAnd(a, b) + c * d
  {
  }

  lemma ParityStep(z: nat, c: nat)
    requires c < 2
    ensures Parity(2 * z + c) == (c + Parity(z)) % 2
  {
  }

  /** Entry of the non-negative quadrant as a function on naturals. */
  function H(i: nat, j: nat): (h: int)
    requires i < 0x8000_0000 && j < 0x8000_0000
    ensures h == 1 || h == -1
  {
    Hadamard2(i as int32, j as int32)
  }

  /**
   * Sylvester's construction: entry (2i+c, 2j+d) is entry (i, j), negated
   * exactly when both low bits are set.
   */
  lemma HadamardSylvester(i: nat, j: nat, c: nat, d: nat)
    requires i < 0x4000_0000 && j < 0x4000_0000 && c < 2 && d < 2
    ensures H(2 * i + c, 2 * j + d) == BlockSign(c, d) * H(i, j)
  {
    BitAndStep(i, j, c, d);
    ParityStep(BitAnd(i, j), c * d);
  }

  function Pow2(k: nat): (p: nat)
    ensures p >= 1
  {
    if k == 0 then 1 else 2 * Pow2(k - 1)
  }

  /** Dot product of rows `a` and `b` over the first `n` columns. */
  function RowDot(a: nat, b: nat, n: nat): int
    requires a < 0x8000_0000 && b < 0x8000_0000 && n <= 0x8000_0000
  {
    if n == 0 then 0 else RowDot(a, b, n - 1) + H(a, n - 1) * H(b, n - 1)
  }

  /** Sign factor Sylvester's construction contributes to the product of rows 2i+c and 2i'+d. */
  function PairSign(c: nat, d: nat): int
  {
    BlockSign(c, 0) * BlockSign(d, 0) + BlockSign(c, 1) * BlockSign(d, 1)
  }

  /** Signs factor out of a product. */
  lemma SignProduct(s: int, t: int, x: int, y: int)
    requires (s == 1 || s == -1) && (t == 1 || t == -1)
    ensures (s * x) * (t * y) == (s * t) * (x * y)
  {
    if s == 1 && t == 1 {
    } else if s == 1 {
      assert t * y == -y;
    } else if t == 1 {
      assert s * x == -x;
    } else {
      assert s * x == -x && t * y == -y;
    }
  }

  /**
   * One column pair of Sylvester's construction: if the first sum is k
   * times the parent's sum, so is the sum with the pair added.
   */
  lemma SignCombine(u: int, v: int, k: int, p: int, r: int, s: int, r': int, s': int)
    requires (u == 1 || u == -1) && (v == 1 || v == -1) && k == u + v
    requires s == k * r && r' == r + p && s' == s + u * p + v * p
    ensures s' == k * r'
  {
    if u == 1 && v == 1 {
      assert s == 2 * r;
    } else if u == -1 && v == -1 {
      assert s == -2 * r;
    } else {
      assert k == 0 && s == 0;
      assert u * p + v * p == 0 by {
        if u == 1 { assert u * p == p && v * p == -p; } else { assert u * p == -p && v * p == p; }
      }
    }
  }

  /** Column 2j+e of rows 2a+c and 2b+d multiplies to the parent product times the two block signs. */
  lemma ColumnPair(a: nat, b: nat, c: nat, d: nat, j: nat, e: nat, col: nat)
    requires a < 0x4000_0000 && b < 0x4000_0000 && j < 0x4000_0000 && c < 2 && d < 2 && e < 2
    requires col == 2 * j + e
    ensures H(2 * a + c, col) * H(2 * b + d, col) == (BlockSign(c, e) * BlockSign(d, e)) * (H(a, j) * H(b, j))
  {
    HadamardSylvester(a, j, c, e);
    HadamardSylvester(b, j, d, e);
    SignProduct(BlockSign(c, e), BlockSign(d, e), H(a, j), H(b, j));
  }

  lemma RowDotTwo(a: nat, b: nat, n: nat, n1: nat, n2: nat)
    requires a < 0x8000_0000 && b < 0x8000_0000 && n1 == n + 1 && n2 == n + 2 && n2 <= 0x8000_0000
    ensures RowDot(a, b, n2) == RowDot(a, b, n) + H(a, n) * H(b, n) + H(a, n1) * H(b, n1)
  {
  }

  /** Summing over the first 2m columns pairs column 2j with column 2j+1. */
  lemma {:induction false} RowDotSplit(a: nat, b: nat, c: nat, d: nat, m: nat)
    requires a < 0x4000_0000 && b < 0x4000_0000 && c < 2 && d < 2 && m <= 0x4000_0000
    ensures RowDot(2 * a + c, 2 * b + d, 2 * m) == PairSign(c, d) * RowDot(a, b, m)
  {
    if m > 0 {
      var j := m - 1;
      var A, B := 2 * a + c, 2 * b + d;
      RowDotSplit(a, b, c, d, j);
      var p := H(a, j) * H(b, j);
      var u, v := BlockSign(c, 0) * BlockSign(d, 0), BlockSign(c, 1) * BlockSign(d, 1);
      ColumnPair(a, b, c, d, j, 0, 2 * j);
      ColumnPair(a, b, c, d, j, 1, 2 * j + 1);
      RowDotTwo(A, B, 2 * j, 2 * j + 1, 2 * m);
      assert RowDot(a, b, m) == RowDot(a, b, j) + p;
      assert PairSign(c, d) == u + v;
      SignCombine(u, v, PairSign(c, d), p, RowDot(a, b, j), RowDot(A, B, 2 * j), RowDot(a, b, m), RowDot(A, B, 2 * m));
    }
  }

  /**
   * The leading 2^k x 2^k block of the sign matrix (for 2^k up to 2^30) is a
   * Hadamard matrix: two rows are orthogonal unless they are the same row.
   */
  lemma {:induction false} HadamardRowsOrthogonal(k: nat, a: nat, b: nat)
    requires Pow2(k) <= 0x4000_0000 && a < Pow2(k) && b < Pow2(k)
    ensures RowDot(a, b, Pow2(k)) == (if a == b then Pow2(k) else 0)
  {
    if k == 0 {
      assert a == 0 && b == 0;
      assert RowDot(0, 0, 1) == H(0, 0) * H(0, 0);
      HadamardZeroRow(0);
    } else {
      var a', c := a / 2, a % 2;
      var b', d := b / 2, b % 2;
      var n := Pow2(k - 1);
      assert Pow2(k) == 2 * n && a == 2 * a' + c && b == 2 * b' + d;
      HadamardRowsOrthogonal(k - 1, a', b');
      RowDotSplit(a', b', c, d, n);
      var r, ps := RowDot(a', b', n), PairSign(c, d);
      assert ps == (if c == d then 2 else 0);
      if a == b {
        assert a' == b' && c == d;
        assert ps * r == 2 * n;
      } else if c != d {
        assert ps * r == 0;
      } else {
        assert a' != b' && r == 0;
        assert ps * r == 0;
      }
    }
  }
}
