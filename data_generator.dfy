/**
 * The index bookkeeping of the test-data generator: how a flat codeblock
 * number splits into (data symbol, UE, block within the UE's symbol), the
 * MAC payload fill patterns, where modulated values land on the OFDM
 * subcarriers and in the IFFT input, and which source each UE's uplink
 * symbol is assembled from.
 *
 * Sample values (complex floats) are an opaque element type `T` with a
 * zero value: only where each value goes is modelled.
 */
module DataGenerator {
  import opened Configuration

  /** A C++ `int8_t`. */
  newtype int8 = x: int | -128 <= x < 128

  /** Conversion of an unsigned value to `int8_t`: its low eight bits read as two's complement. */
  function ToInt8(x: nat): (b: int8)
    ensures (x - b as int) % 256 == 0
    ensures x < 128 ==> b as int == x
  {
    var low := x % 256;
    if low < 128 then low as int8 else (low - 256) as int8
  }

  // ---------------------------------------------------------------------
  // Codeblock decomposition
  // ---------------------------------------------------------------------

  /** A product of counts, by repeated addition (so that proofs about it stay linear). */
  function Times(a: nat, b: nat): nat
  {
    if a == 0 then 0 else Times(a - 1, b) + b
  }

  /** a <= b gives a*d <= b*d. */
  lemma {:induction false} TimesMonotone(a: nat, b: nat, d: nat)
    requires a <= b
    ensures Times(a, d) <= Times(b, d)
  {
    if a < b {
      TimesMonotone(a, b - 1, d);
    }
  }

  /** Slice k of width w ends within n slices. */
  lemma {:induction false} SliceFits(k: nat, n: nat, w: nat)
    requires k < n
    ensures Times(k, w) + w <= Times(n, w)
  {
    TimesMonotone(k + 1, n, w);
  }

  /**
   * Unsigned division with remainder (C++ `/` and `%` on `size_t`):
   * subtract the divisor until less than it is left.
   */
  function DivMod(x: nat, d: nat): (r: (nat, nat))
    requires d > 0
    ensures r.1 < d && x == Times(r.0, d) + r.1
    decreases x
  {
    if x < d then (0, x)
    else
      var t := DivMod(x - d, d);
      (t.0 + 1, t.1)
  }

  /** Division with remainder has one answer. */
  lemma {:induction false} DivModUnique(x: nat, d: nat, q: nat, r: nat)
    requires d > 0 && r < d && x == Times(q, d) + r
    ensures DivMod(x, d) == (q, r)
  {
    if q > 0 {
      DivModUnique(x - d, d, q - 1, r);
    }
  }

  /** x < n*d gives a quotient below n. */
  lemma {:induction false} DivBelow(x: nat, d: nat, n: nat)
    requires d > 0 && x < Times(n, d)
    ensures DivMod(x, d).0 < n
  {
    if x >= d {
      DivBelow(x - d, d, n - 1);
    }
  }

  /**
   * Where codeblock `cb` comes from: data symbol `symId`, UE `ueId`, its
   * `ueCbId`-th block within that symbol, and `ueCbCnt`, the UE's running
   * codeblock number, which selects the bytes of the UE's MAC data.
   */
  datatype CodeblockPlace = CodeblockPlace(symId: nat, ueId: nat, ueCbId: nat, ueCbCnt: nat)

  /** The codeblocks of one data symbol: `blocksInSymbol` per UE. */
  function SymbolBlocks(blocksInSymbol: nat, ueAntNum: nat): nat
  {
    Times(ueAntNum, blocksInSymbol)
  }

  /** Codeblocks are numbered symbol by symbol, UE by UE within a symbol, block by block within a UE. */
  function CodeblockOf(cb: nat, blocksInSymbol: nat, ueAntNum: nat): (p: CodeblockPlace)
    requires blocksInSymbol > 0 && ueAntNum > 0
    ensures p.ueId < ueAntNum && p.ueCbId < blocksInSymbol
    ensures cb == Times(p.symId, SymbolBlocks(blocksInSymbol, ueAntNum)) + Times(p.ueId, blocksInSymbol) + p.ueCbId
    ensures p.ueCbCnt == Times(p.symId, blocksInSymbol) + p.ueCbId
  {
    SliceFits(0, ueAntNum, blocksInSymbol);
    var symbolBlocks := SymbolBlocks(blocksInSymbol, ueAntNum);
    var sym := DivMod(cb, symbolBlocks);
    var ue := DivMod(sym.1, blocksInSymbol);
    DivBelow(sym.1, blocksInSymbol, ueAntNum);
    CodeblockPlace(sym.0, ue.0, ue.1, Times(sym.0, blocksInSymbol) + ue.1)
  }

  /** The decomposition is the inverse of numbering: composing a place and splitting it gives it back. */
  lemma {:induction false} CodeblockOfCompose(symId: nat, ueId: nat, ueCbId: nat, blocksInSymbol: nat, ueAntNum: nat)
    requires ueId < ueAntNum && ueCbId < blocksInSymbol
    ensures CodeblockOf(Times(symId, SymbolBlocks(blocksInSymbol, ueAntNum)) + Times(ueId, blocksInSymbol) + ueCbId, blocksInSymbol, ueAntNum)
            == CodeblockPlace(symId, ueId, ueCbId, Times(symId, blocksInSymbol) + ueCbId)
  {
    var sb := SymbolBlocks(blocksInSymbol, ueAntNum);
    var off := Times(ueId, blocksInSymbol) + ueCbId;
    var cb := Times(symId, sb) + Times(ueId, blocksInSymbol) + ueCbId;
    SliceFits(ueId, ueAntNum, blocksInSymbol);
    assert cb == Times(symId, sb) + off;
    DivModUnique(cb, sb, symId, off);
    DivModUnique(off, blocksInSymbol, ueId, ueCbId);
  }

  /**
   * Two different codeblocks of the same UE have different running numbers,
   * so they take disjoint slices of that UE's MAC data.
   */
  lemma {:induction false} CodeblockCountsDistinct(cb1: nat, cb2: nat, blocksInSymbol: nat, ueAntNum: nat)
    requires blocksInSymbol > 0 && ueAntNum > 0 && cb1 != cb2
    ensures var p1 := CodeblockOf(cb1, blocksInSymbol, ueAntNum);
      var p2 := CodeblockOf(cb2, blocksInSymbol, ueAntNum);
      p1.ueId == p2.ueId ==> p1.ueCbCnt != p2.ueCbCnt
  {
    var p1 := CodeblockOf(cb1, blocksInSymbol, ueAntNum);
    var p2 := CodeblockOf(cb2, blocksInSymbol, ueAntNum);
    if p1.ueId == p2.ueId && p1.ueCbCnt == p2.ueCbCnt {
      DivModUnique(p1.ueCbCnt, blocksInSymbol, p1.symId, p1.ueCbId);
      DivModUnique(p2.ueCbCnt, blocksInSymbol, p2.symId, p2.ueCbId);
    }
  }

  /** A codeblock of the first `numSyms` data symbols uses a running number below numSyms * blocksInSymbol. */
  lemma {:induction false} CodeblockCountBound(cb: nat, numSyms: nat, blocksInSymbol: nat, ueAntNum: nat)
    requires blocksInSymbol > 0 && ueAntNum > 0
    requires cb < Times(numSyms, SymbolBlocks(blocksInSymbol, ueAntNum))
    ensures CodeblockOf(cb, blocksInSymbol, ueAntNum).symId < numSyms
    ensures CodeblockOf(cb, blocksInSymbol, ueAntNum).ueCbCnt < Times(numSyms, blocksInSymbol)
  {
    var sb := SymbolBlocks(blocksInSymbol, ueAntNum);
    SliceFits(0, ueAntNum, blocksInSymbol);
    DivBelow(cb, sb, numSyms);
    var p := CodeblockOf(cb, blocksInSymbol, ueAntNum);
    SliceFits(p.symId, numSyms, blocksInSymbol);
  }

  /** The MAC data of every UE covers the codeblocks of `numSyms` data symbols. */
  predicate MacInfoFits(macInfo: seq<seq<int8>>, numSyms: nat, blocksInSymbol: nat, cbBytes: nat)
  {
    forall u :: 0 <= u < |macInfo| ==> |macInfo[u]| >= Times(Times(numSyms, blocksInSymbol), cbBytes)
  }

  /** The bytes of codeblock `cb`: `cbBytes` bytes of its UE's MAC data at its running number. */
  function CodeblockBytes(macInfo: seq<seq<int8>>, numSyms: nat, blocksInSymbol: nat, cbBytes: nat, cb: nat): (bytes: seq<int8>)
    requires blocksInSymbol > 0 && |macInfo| > 0 && MacInfoFits(macInfo, numSyms, blocksInSymbol, cbBytes)
    requires cb < Times(numSyms, SymbolBlocks(blocksInSymbol, |macInfo|))
    ensures |bytes| == cbBytes
  {
    var p := CodeblockOf(cb, blocksInSymbol, |macInfo|);
    CodeblockCountBound(cb, numSyms, blocksInSymbol, |macInfo|);
    SliceFits(p.ueCbCnt, Times(numSyms, blocksInSymbol), cbBytes);
    macInfo[p.ueId][Times(p.ueCbCnt, cbBytes)..Times(p.ueCbCnt, cbBytes) + cbBytes]
  }

  /**
   * Splitting the UEs' MAC data into codeblocks (one UE's data per entry of
   * `macInfo`), for every codeblock of the `numSyms` data symbols.
   */
  method SplitCodeblocks(macInfo: seq<seq<int8>>, numSyms: nat, blocksInSymbol: nat, cbBytes: nat)
    returns (information: seq<seq<int8>>)
    requires blocksInSymbol > 0 && |macInfo| > 0 && MacInfoFits(macInfo, numSyms, blocksInSymbol, cbBytes)
    ensures |information| == Times(numSyms, SymbolBlocks(blocksInSymbol, |macInfo|))
    ensures forall cb :: 0 <= cb < |information| ==> information[cb] == CodeblockBytes(macInfo, numSyms, blocksInSymbol, cbBytes, cb)
  {
    var ueAntNum := |macInfo|;
    var symbolBlocks := SymbolBlocks(blocksInSymbol, ueAntNum);
    var numCodeblocks := Times(numSyms, symbolBlocks);
    SliceFits(0, ueAntNum, blocksInSymbol);
    information := [];
    for cb := 0 to numCodeblocks
      invariant |information| == cb
      invariant forall k :: 0 <= k < cb ==> information[k] == CodeblockBytes(macInfo, numSyms, blocksInSymbol, cbBytes, k)
    {
      var (symId, symOffset) := DivMod(cb, symbolBlocks);
      var (ueId, ueCbId) := DivMod(symOffset, blocksInSymbol);
      DivBelow(symOffset, blocksInSymbol, ueAntNum);
      var ueCbCnt := Times(symId, blocksInSymbol) + ueCbId;
      CodeblockCountBound(cb, numSyms, blocksInSymbol, ueAntNum);
      SliceFits(ueCbCnt, Times(numSyms, blocksInSymbol), cbBytes);
      var start := Times(ueCbCnt, cbBytes);
      information := information + [macInfo[ueId][start..start + cbBytes]];
    }
  }

  /**
   * The codeblock that holds byte `j` of UE `u`'s MAC data, and the byte's
   * offset in it: the byte's running codeblock number splits into a data
   * symbol and a block within the UE's part of that symbol.
   */
  function ByteHome(u: nat, j: nat, blocksInSymbol: nat, ueAntNum: nat, cbBytes: nat): (r: (nat, nat))
    requires blocksInSymbol > 0 && cbBytes > 0
  {
    var cnt := DivMod(j, cbBytes);
    var sb := DivMod(cnt.0, blocksInSymbol);
    (Times(sb.0, SymbolBlocks(blocksInSymbol, ueAntNum)) + Times(u, blocksInSymbol) + sb.1, cnt.1)
  }

  /** The home codeblock of a byte belongs to that UE and has the byte's running number. */
  lemma {:induction false} ByteHomePlace(numSyms: nat, blocksInSymbol: nat, ueAntNum: nat, cbBytes: nat, u: nat, j: nat)
    requires blocksInSymbol > 0 && cbBytes > 0 && u < ueAntNum
    requires j < Times(Times(numSyms, blocksInSymbol), cbBytes)
    ensures var h := ByteHome(u, j, blocksInSymbol, ueAntNum, cbBytes);
      && h.0 < Times(numSyms, SymbolBlocks(blocksInSymbol, ueAntNum))
      && CodeblockOf(h.0, blocksInSymbol, ueAntNum).ueId == u
      && j == Times(CodeblockOf(h.0, blocksInSymbol, ueAntNum).ueCbCnt, cbBytes) + h.1
  {
    var cnt := DivMod(j, cbBytes);
    var sb := DivMod(cnt.0, blocksInSymbol);
    var n := SymbolBlocks(blocksInSymbol, ueAntNum);
    DivBelow(j, cbBytes, Times(numSyms, blocksInSymbol));
    DivBelow(cnt.0, blocksInSymbol, numSyms);
    CodeblockOfCompose(sb.0, u, sb.1, blocksInSymbol, ueAntNum);
    SliceFits(u, ueAntNum, blocksInSymbol);
    SliceFits(sb.0, numSyms, n);
  }

  /** No MAC byte is lost: every byte of every UE's data is in its home codeblock. */
  lemma {:induction false} CodeblocksCover(macInfo: seq<seq<int8>>, numSyms: nat, blocksInSymbol: nat, cbBytes: nat, u: nat, j: nat)
    requires blocksInSymbol > 0 && |macInfo| > 0 && cbBytes > 0 && MacInfoFits(macInfo, numSyms, blocksInSymbol, cbBytes)
    requires u < |macInfo| && j < Times(Times(numSyms, blocksInSymbol), cbBytes)
    ensures var h := ByteHome(u, j, blocksInSymbol, |macInfo|, cbBytes);
      && h.0 < Times(numSyms, SymbolBlocks(blocksInSymbol, |macInfo|))
      && CodeblockBytes(macInfo, numSyms, blocksInSymbol, cbBytes, h.0)[h.1] == macInfo[u][j]
  {
    var h := ByteHome(u, j, blocksInSymbol, |macInfo|, cbBytes);
    ByteHomePlace(numSyms, blocksInSymbol, |macInfo|, cbBytes, u, j);
    var p := CodeblockOf(h.0, blocksInSymbol, |macInfo|);
    CodeblockCountBound(h.0, numSyms, blocksInSymbol, |macInfo|);
    SliceFits(p.ueCbCnt, Times(numSyms, blocksInSymbol), cbBytes);
  }

  // ---------------------------------------------------------------------
  // MAC payload
  // ---------------------------------------------------------------------

  /** How test payloads are filled. */
  datatype Profile = Random | Profile123 | OtherProfile

  /** The Profile123 byte of UE `ueId` at payload position `i`. */
  function Profile123Byte(ueId: nat, i: nat): int8
  {
    ToInt8(1 + ueId * 3 + i % 3)
  }

  /**
   * For the first 42 UEs the pattern is exact (no truncation): bytes cycle
   * through three values with period 3, and two UEs never write the same
   * value.
   */
  lemma {:induction false} Profile123Pattern(u1: nat, i1: nat, u2: nat, i2: nat)
    requires u1 < 42 && u2 < 42
    ensures Profile123Byte(u1, i1) as int == 1 + 3 * u1 + i1 % 3
    ensures Profile123Byte(u1, i1) == Profile123Byte(u1, i1 + 3)
    ensures Profile123Byte(u1, i1) == Profile123Byte(u2, i2) ==> u1 == u2 && i1 % 3 == i2 % 3
  {
    assert (i1 + 3) % 3 == i1 % 3;
  }

  /**
   * Fills the payload `data` of UE `ueId`: with the low byte of successive
   * random words, with the Profile123 pattern, or (any other profile) not
   * at all. `randoms` stands for the generator's successive outputs.
   */
  method GenMacData(profile: Profile, ueId: nat, data: array<int8>, randoms: seq<nat>)
    requires profile == Random ==> |randoms| >= data.Length
    modifies data
    ensures profile == Random ==> forall i :: 0 <= i < data.Length ==> data[i] == ToInt8(randoms[i])
    ensures profile == Profile123 ==> forall i :: 0 <= i < data.Length ==> data[i] == Profile123Byte(ueId, i)
    ensures profile == OtherProfile ==> data[..] == old(data[..])
  {
    for i := 0 to data.Length
      invariant profile == Random ==> forall k :: 0 <= k < i ==> data[k] == ToInt8(randoms[k])
      invariant profile == Profile123 ==> forall k :: 0 <= k < i ==> data[k] == Profile123Byte(ueId, k)
      invariant profile == OtherProfile ==> data[..] == old(data[..])
    {
      if profile == Random {
        data[i] := ToInt8(randoms[i]);
      } else if profile == Profile123 {
        data[i] := ToInt8(1 + ueId * 3 + i % 3);
      }
    }
  }

  // ---------------------------------------------------------------------
  // Subcarrier mapping
  // ---------------------------------------------------------------------

  /**
   * The configuration's subcarrier classification: which data-band
   * subcarriers carry data (or control) and which modulated value each
   * takes.
   */
  datatype SubcarrierMap = SubcarrierMap(
    isData: nat -> bool, dataIndex: nat -> nat,
    isControl: nat -> bool, ctrlIndex: nat -> nat)

  /** What subcarrier `i` of a symbol of type `t` carries. */
  function MappedValue<T>(sc: SubcarrierMap, modulated: seq<T>, pilot: seq<T>, t: SymbolType, i: nat, zero: T): T
    requires (t == DL || t == Control) ==> i < |pilot|
  {
    if t == UL then
      if i < |modulated| then modulated[i] else zero
    else if t == DL then
      if sc.isData(i) then
        if sc.dataIndex(i) < |modulated| then modulated[sc.dataIndex(i)] else zero
      else pilot[i]
    else if t == Control then
      if sc.isControl(i) then
        if sc.ctrlIndex(i) < |modulated| then modulated[sc.ctrlIndex(i)] else zero
      else pilot[i]
    else zero
  }

  /** The data band of one OFDM symbol. */
  function OfdmSymbol<T>(dataNum: nat, sc: SubcarrierMap, modulated: seq<T>, pilot: seq<T>, t: SymbolType, zero: T): (r: seq<T>)
    requires (t == DL || t == Control) ==> |pilot| >= dataNum
    ensures |r| == dataNum
  {
    seq(dataNum, i requires 0 <= i < dataNum => MappedValue(sc, modulated, pilot, t, i, zero))
  }

  /** Places a modulated codeword on the `dataNum` subcarriers of the data band. */
  method MapOfdmSymbol<T>(dataNum: nat, sc: SubcarrierMap, modulated: seq<T>, pilot: seq<T>, t: SymbolType, zero: T)
    returns (ofdm: seq<T>)
    requires (t == DL || t == Control) ==> |pilot| >= dataNum
    ensures ofdm == OfdmSymbol(dataNum, sc, modulated, pilot, t, zero)
  {
    ofdm := seq(dataNum, _ => zero);
    for i := 0 to dataNum
      invariant |ofdm| == dataNum
      invariant forall k :: 0 <= k < i ==> ofdm[k] == MappedValue(sc, modulated, pilot, t, k, zero)
      invariant forall k :: i <= k < dataNum ==> ofdm[k] == zero
    {
      if t == UL {
        if i < |modulated| {
          ofdm := ofdm[i := modulated[i]];
        }
      } else if t == DL {
        if sc.isData(i) {
          var dataIdx := sc.dataIndex(i);
          if dataIdx < |modulated| {
            ofdm := ofdm[i := modulated[dataIdx]];
          }
        } else {
          ofdm := ofdm[i := pilot[i]];
        }
      } else if t == Control {
        if sc.isControl(i) {
          var ctrlIdx := sc.ctrlIndex(i);
          if ctrlIdx < |modulated| {
            ofdm := ofdm[i := modulated[ctrlIdx]];
          }
        } else {
          ofdm := ofdm[i := pilot[i]];
        }
      }
    }
  }

  /**
   * An uplink symbol is the codeword itself, cut to the data band or
   * padded with zeros.
   */
  lemma {:induction false} OfdmSymbolUplink<T>(dataNum: nat, sc: SubcarrierMap, modulated: seq<T>, pilot: seq<T>, zero: T)
    ensures var r := OfdmSymbol(dataNum, sc, modulated, pilot, UL, zero);
      && (|modulated| >= dataNum ==> r == modulated[..dataNum])
      && (|modulated| < dataNum ==> r == modulated + seq(dataNum - |modulated|, _ => zero))
  {
    var r := OfdmSymbol(dataNum, sc, modulated, pilot, UL, zero);
    if |modulated| >= dataNum {
      assert forall i :: 0 <= i < dataNum ==> r[i] == modulated[..dataNum][i];
    } else {
      var padded := modulated + seq(dataNum - |modulated|, _ => zero);
      assert forall i :: 0 <= i < dataNum ==> r[i] == padded[i];
    }
  }

  /**
   * In a downlink or control symbol every data (control) subcarrier carries
   * the modulated value it is mapped to, every other subcarrier the pilot;
   * symbols of any other type are all zeros.
   */
  lemma {:induction false} OfdmSymbolDownlink<T>(dataNum: nat, sc: SubcarrierMap, modulated: seq<T>, pilot: seq<T>, t: SymbolType, zero: T, i: nat)
    requires (t == DL || t == Control) ==> |pilot| >= dataNum
    requires i < dataNum
    ensures var r := OfdmSymbol(dataNum, sc, modulated, pilot, t, zero);
      && (t == DL && sc.isData(i) && sc.dataIndex(i) < |modulated| ==> r[i] == modulated[sc.dataIndex(i)])
      && (t == DL && !sc.isData(i) ==> r[i] == pilot[i])
      && (t == Control && sc.isControl(i) && sc.ctrlIndex(i) < |modulated| ==> r[i] == modulated[sc.ctrlIndex(i)])
      && (t == Control && !sc.isControl(i) ==> r[i] == pilot[i])
      && (t != UL && t != DL && t != Control ==> r[i] == zero)
  {
  }

  // ---------------------------------------------------------------------
  // IFFT input
  // ---------------------------------------------------------------------

  /** The subcarrier layout: `caNum` subcarriers, the data band `dataNum` wide from `dataStart`. */
  datatype OfdmLayout = OfdmLayout(caNum: nat, dataStart: nat, dataNum: nat)
  {
    predicate Valid() { dataStart + dataNum <= caNum }
  }

  /**
   * The unshifted IFFT input: the data band holds the first `dataNum`
   * modulated values, every other subcarrier is zero.
   */
  function BinForIfft<T>(lay: OfdmLayout, modulated: seq<T>, zero: T): (r: seq<T>)
    requires lay.Valid() && |modulated| >= lay.dataNum
    ensures |r| == lay.caNum
    ensures r[lay.dataStart..lay.dataStart + lay.dataNum] == modulated[..lay.dataNum]
    ensures forall k :: 0 <= k < lay.caNum && !(lay.dataStart <= k < lay.dataStart + lay.dataNum) ==> r[k] == zero
  {
    seq(lay.dataStart, _ => zero) + modulated[..lay.dataNum] + seq(lay.caNum - lay.dataStart - lay.dataNum, _ => zero)
  }

  // ---------------------------------------------------------------------
  // Uplink symbol assembly
  // ---------------------------------------------------------------------

  /** `row` with `data` written over it from position `at`. */
  function Splice<T>(row: seq<T>, at: nat, data: seq<T>): (r: seq<T>)
    requires at + |data| <= |row|
    ensures |r| == |row|
  {
    row[..at] + data + row[at + |data|..]
  }

  /** `row[at..at + |data|]` is `data`. */
  ghost predicate HoldsAt<T>(row: seq<T>, at: nat, data: seq<T>)
  {
    at + |data| <= |row| && row[at..at + |data|] == data
  }

  /** A splice holds its data and keeps whatever lay wholly before it. */
  lemma {:induction false} SpliceSpec<T>(row: seq<T>, at: nat, data: seq<T>, at2: nat, data2: seq<T>)
    requires at + |data| <= |row|
    ensures HoldsAt(Splice(row, at, data), at, data)
    ensures at2 + |data2| <= at && HoldsAt(row, at2, data2) ==> HoldsAt(Splice(row, at, data), at2, data2)
  {
    var r := Splice(row, at, data);
    assert r[at..at + |data|] == data;
    if at2 + |data2| <= at && HoldsAt(row, at2, data2) {
      assert r[at2..at2 + |data2|] == row[at2..at2 + |data2|];
    }
  }

  /**
   * The inputs of the assembly: the row of every symbol holds `ueAntNum`
   * blocks of `caNum` samples; `uePilot[j]` is UE j's uplink pilot (its data
   * band) and `preIfft[k]` a whole data symbol of one UE.
   */
  predicate AssemblyInputs<T>(c: Config, lay: OfdmLayout, uePilot: seq<seq<T>>, preIfft: seq<seq<T>>)
  {
    && lay.Valid()
    && |uePilot| >= c.ueAntNum
    && (forall j :: 0 <= j < c.ueAntNum ==> |uePilot[j]| >= lay.dataNum)
    && (c.NumULSyms() > c.clientUlPilotSymbols ==>
          Times(c.NumULSyms() - c.clientUlPilotSymbols, c.ueAntNum) <= |preIfft|)
    && (forall k :: 0 <= k < |preIfft| ==> |preIfft[k]| >= lay.caNum)
  }

  /**
   * Where UE j's part of the i-th uplink symbol comes from: one of the
   * first `clientUlPilotSymbols` uplink symbols carries the UE pilot on the
   * data band of the UE's block; a later one carries the whole data symbol
   * numbered (i - clientUlPilotSymbols) * ueAntNum + j.
   */
  function UplinkSpan<T>(c: Config, lay: OfdmLayout, uePilot: seq<seq<T>>, preIfft: seq<seq<T>>, i: nat, j: nat): (r: (nat, seq<T>))
    requires AssemblyInputs(c, lay, uePilot, preIfft)
    requires i < c.NumULSyms() && j < c.ueAntNum
    ensures Times(j, lay.caNum) <= r.0 && r.0 + |r.1| <= Times(j, lay.caNum) + lay.caNum
  {
    if i < c.clientUlPilotSymbols then
      (Times(j, lay.caNum) + lay.dataStart, uePilot[j][..lay.dataNum])
    else
      var k := i - c.clientUlPilotSymbols;
      SliceFits(k, c.NumULSyms() - c.clientUlPilotSymbols, c.ueAntNum);
      (Times(j, lay.caNum), preIfft[Times(k, c.ueAntNum) + j][..lay.caNum])
  }

  /** The row of the i-th uplink symbol after the first `j` UEs' spans are written. */
  function FillRow<T>(c: Config, lay: OfdmLayout, uePilot: seq<seq<T>>, preIfft: seq<seq<T>>, row: seq<T>, i: nat, j: nat): (r: seq<T>)
    requires AssemblyInputs(c, lay, uePilot, preIfft)
    requires i < c.NumULSyms() && j <= c.ueAntNum && |row| == Times(c.ueAntNum, lay.caNum)
    ensures |r| == |row|
  {
    if j == 0 then row
    else
      var span := UplinkSpan(c, lay, uePilot, preIfft, i, j - 1);
      SliceFits(j - 1, c.ueAntNum, lay.caNum);
      Splice(FillRow(c, lay, uePilot, preIfft, row, i, j - 1), span.0, span.1)
  }

  /**
   * Each UE's span holds its source, and the spans of different UEs do not
   * overwrite each other (each stays inside its UE's block).
   */
  lemma {:induction false} FillRowSpans<T>(c: Config, lay: OfdmLayout, uePilot: seq<seq<T>>, preIfft: seq<seq<T>>,
                                          row: seq<T>, i: nat, j: nat, u: nat)
    requires AssemblyInputs(c, lay, uePilot, preIfft)
    requires i < c.NumULSyms() && j <= c.ueAntNum && |row| == Times(c.ueAntNum, lay.caNum)
    requires u < j
    ensures var span := UplinkSpan(c, lay, uePilot, preIfft, i, u);
      HoldsAt(FillRow(c, lay, uePilot, preIfft, row, i, j), span.0, span.1)
  {
    var span := UplinkSpan(c, lay, uePilot, preIfft, i, u);
    var prev := FillRow(c, lay, uePilot, preIfft, row, i, j - 1);
    var last := UplinkSpan(c, lay, uePilot, preIfft, i, j - 1);
    SliceFits(j - 1, c.ueAntNum, lay.caNum);
    assert FillRow(c, lay, uePilot, preIfft, row, i, j) == Splice(prev, last.0, last.1);
    if u < j - 1 {
      FillRowSpans(c, lay, uePilot, preIfft, row, i, j - 1, u);
      SliceFits(u, j - 1, lay.caNum);
    }
    SpliceSpec(prev, last.0, last.1, span.0, span.1);
  }

  /** The row a symbol should have once the first `n` uplink symbols are assembled. */
  function Assembled<T>(c: Config, lay: OfdmLayout, uePilot: seq<seq<T>>, preIfft: seq<seq<T>>, rows: seq<seq<T>>, s: nat, n: nat): seq<T>
    requires AssemblyInputs(c, lay, uePilot, preIfft)
    requires s < |rows| && |rows[s]| == Times(c.ueAntNum, lay.caNum)
  {
    var idx := c.GetULSymbolIdx(s);
    if idx.Some? && idx.value < n then FillRow(c, lay, uePilot, preIfft, rows[s], idx.value, c.ueAntNum) else rows[s]
  }

  /**
   * Fills the uplink symbols of the frame: for each uplink symbol and each
   * UE, its pilot or its data symbol. `rows` holds the frame's symbols, one
   * row per symbol; rows of other symbols are left as they were.
   */
  method PopulateUplink<T>(c: Config, lay: OfdmLayout, uePilot: seq<seq<T>>, preIfft: seq<seq<T>>, rows: seq<seq<T>>)
    returns (out: seq<seq<T>>)
    requires AssemblyInputs(c, lay, uePilot, preIfft)
    requires |rows| == c.NumTotalSyms()
    requires forall s :: 0 <= s < |rows| ==> |rows[s]| == Times(c.ueAntNum, lay.caNum)
    ensures |out| == |rows|
    ensures forall s :: 0 <= s < |rows| && c.GetULSymbolIdx(s).Some? ==>
      out[s] == FillRow(c, lay, uePilot, preIfft, rows[s], c.GetULSymbolIdx(s).value, c.ueAntNum)
    ensures forall s :: 0 <= s < |rows| && c.GetULSymbolIdx(s).None? ==> out[s] == rows[s]
  {
    PositionsSpec(c.symbolTypes, UL);
    var ul := c.ULSymbols();
    out := rows;
    for i := 0 to |ul|
      invariant |out| == |rows|
      invariant forall s :: 0 <= s < |out| ==> out[s] == Assembled(c, lay, uePilot, preIfft, rows, s, i)
    {
      var dataSymId := ul[i];
      ULSymbolIdx(c, i);
      var filled := FillUplinkRow(c, lay, uePilot, preIfft, out[dataSymId], i);
      out := out[dataSymId := filled];
    }
  }

  /** The row of the i-th uplink symbol: each UE's span written in UE order. */
  method FillUplinkRow<T>(c: Config, lay: OfdmLayout, uePilot: seq<seq<T>>, preIfft: seq<seq<T>>, row: seq<T>, i: nat)
    returns (r: seq<T>)
    requires AssemblyInputs(c, lay, uePilot, preIfft)
    requires i < c.NumULSyms() && |row| == Times(c.ueAntNum, lay.caNum)
    ensures r == FillRow(c, lay, uePilot, preIfft, row, i, c.ueAntNum)
  {
    r := row;
    for j := 0 to c.ueAntNum
      invariant r == FillRow(c, lay, uePilot, preIfft, row, i, j)
    {
      SliceFits(j, c.ueAntNum, lay.caNum);
      var at: nat;
      var source: seq<T>;
      if i < c.clientUlPilotSymbols {
        at := Times(j, lay.caNum) + lay.dataStart;
        source := uePilot[j][..lay.dataNum];
      } else {
        var k := i - c.clientUlPilotSymbols;
        SliceFits(k, c.NumULSyms() - c.clientUlPilotSymbols, c.ueAntNum);
        at := Times(j, lay.caNum);
        source := preIfft[Times(k, c.ueAntNum) + j][..lay.caNum];
      }
      assert UplinkSpan(c, lay, uePilot, preIfft, i, j) == (at, source);
      r := Splice(r, at, source);
    }
  }
}
