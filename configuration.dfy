/**
 * The part of the system configuration the scheduler, the workers, the UE
 * radio worker and the data generator read: the frame schedule (one symbol
 * type per symbol), antenna and block counts, and build switches.
 */
module Configuration {

  import opened Wrappers

  datatype SymbolType = Beacon | UL | DL | Pilot | CalDL | CalUL | Control | Guard | Unknown

  /** Link direction: uplink (UE to base station) or downlink. */
  datatype Direction = Uplink | Downlink

  /** Positions of the symbols of type `t` in `types`, in ascending order (see PositionsSpec). */
  function Positions(types: seq<SymbolType>, t: SymbolType): (ps: seq<nat>)
    ensures |ps| <= |types|
  {
    if |types| == 0 then []
    else Positions(types[..|types| - 1], t) + (if types[|types| - 1] == t then [|types| - 1] else [])
  }

  /** Positions of a non-empty schedule: those of all but the last symbol, then possibly the last one. */
  lemma PositionsLast(types: seq<SymbolType>, t: SymbolType)
    requires |types| > 0
    ensures Positions(types, t)
            == Positions(types[..|types| - 1], t) + (if types[|types| - 1] == t then [|types| - 1] else [])
  {
  }

  /** Each listed position is a symbol of type `t`. */
  lemma {:induction false} PositionsTyped(types: seq<SymbolType>, t: SymbolType)
    ensures forall k :: 0 <= k < |Positions(types, t)| ==>
              Positions(types, t)[k] < |types| && types[Positions(types, t)[k]] == t
  {
    if |types| > 0 {
      var n := |types| - 1;
      var init := types[..n];
      var ps0 := Positions(init, t);
      var ps := Positions(types, t);
      PositionsLast(types, t);
      PositionsTyped(init, t);
      forall k | 0 <= k < |ps|
        ensures ps[k] < |types| && types[ps[k]] == t
      {
        if k < |ps0| {
          assert ps[k] == ps0[k] && init[ps0[k]] == types[ps0[k]];
        }
      }
    }
  }

  /** The positions ascend strictly. */
  lemma {:induction false} PositionsAscending(types: seq<SymbolType>, t: SymbolType)
    ensures forall k, l :: 0 <= k < l < |Positions(types, t)| ==> Positions(types, t)[k] < Positions(types, t)[l]
  {
    if |types| > 0 {
      var n := |types| - 1;
      var init := types[..n];
      var ps0 := Positions(init, t);
      var ps := Positions(types, t);
      PositionsLast(types, t);
      PositionsAscending(init, t);
      PositionsTyped(init, t);
      forall k, l | 0 <= k < l < |ps|
        ensures ps[k] < ps[l]
      {
        if l >= |ps0| {
          assert ps[l] == n && ps[k] == ps0[k];
        } else {
          assert ps[k] == ps0[k] && ps[l] == ps0[l];
        }
      }
    }
  }

  /** No symbol of type `t` is missed. */
  lemma {:induction false} PositionsComplete(types: seq<SymbolType>, t: SymbolType)
    ensures forall p :: 0 <= p < |types| && types[p] == t ==> p in Positions(types, t)
  {
    if |types| > 0 {
      var n := |types| - 1;
      var init := types[..n];
      var ps0 := Positions(init, t);
      var ps := Positions(types, t);
      PositionsLast(types, t);
      PositionsComplete(init, t);
      forall p | 0 <= p < |types| && types[p] == t
        ensures p in ps
      {
        if p < n {
          assert init[p] == types[p];
          assert p in ps0;
        } else {
          assert ps[|ps| - 1] == p;
        }
      }
    }
  }

  /**
   * The positions are exactly the symbols of type `t`: each listed position
   * has that type, they ascend strictly, and none is missed.
   */
  lemma PositionsSpec(types: seq<SymbolType>, t: SymbolType)
    ensures forall k :: 0 <= k < |Positions(types, t)| ==>
              Positions(types, t)[k] < |types| && types[Positions(types, t)[k]] == t
    ensures forall k, l :: 0 <= k < l < |Positions(types, t)| ==> Positions(types, t)[k] < Positions(types, t)[l]
    ensures forall p :: 0 <= p < |types| && types[p] == t ==> p in Positions(types, t)
  {
    PositionsTyped(types, t);
    PositionsAscending(types, t);
    PositionsComplete(types, t);
  }

  /** The index of `s` in `list`, if it occurs. */
  function IndexOf(list: seq<nat>, s: nat): (r: Option<nat>)
    ensures r.Some? ==> r.value < |list| && list[r.value] == s
    ensures r.None? <==> s !in list
  {
    if |list| == 0 then None
    else if list[0] == s then Some(0)
    else
      var r := IndexOf(list[1..], s);
      assert s in list[1..] <==> s in list;
      if r.Some? then Some(r.value + 1) else None
  }

  lemma IndexOfAscending(list: seq<nat>, i: nat)
    requires i < |list|
    requires forall k, l :: 0 <= k < l < |list| ==> list[k] < list[l]
    ensures IndexOf(list, list[i]) == Some(i)
  {
    assert list[i] in list;
  }

  /** The product of two counts (stated once, so that count arithmetic stays linear). */
  function MulNat(a: nat, b: nat): (p: nat)
    ensures p == a * b
  {
    if a == 0 then 0 else b + MulNat(a - 1, b)
  }

  datatype Config = Config(
    symbolTypes: seq<SymbolType>,   // the frame schedule
    clientUlPilotSymbols: nat,      // leading UL symbols that carry UE pilots
    clientDlPilotSymbols: nat,      // leading DL symbols that carry pilots
    bsAntNum: nat,
    bfAntNum: nat,
    ueAntNum: nat,
    fftBlockSize: nat,
    demulEventsPerSymbol: nat,
    demulBlockSize: nat,
    beamEventsPerSymbol: nat,
    beamBlockSize: nat,
    spatialStreamsNum: nat,
    ulBlocksInSymbol: nat,          // LDPC codeblocks per UL symbol per stream
    dlBlocksInSymbol: nat,          // LDPC codeblocks per DL symbol per stream
    encodeBlockSize: nat,
    framesToTest: nat,
    frameWnd: nat,                  // frames in flight (kFrameWnd)
    scheduleQueues: nat,            // downlink frames admitted ahead of processing (kScheduleQueues)
    enableMac: bool,
    uplinkHardDemod: bool,
    bigstationMode: bool,
    recCalEnabled: bool,
    workerThreadNum: nat)
  {
    function NumTotalSyms(): nat { |symbolTypes| }

    function GetSymbolType(s: nat): SymbolType
    {
      if s < |symbolTypes| then symbolTypes[s] else Unknown
    }

    function PilotSymbols(): seq<nat> { Positions(symbolTypes, Pilot) }
    function ULSymbols(): seq<nat> { Positions(symbolTypes, UL) }
    function DLSymbols(): seq<nat> { Positions(symbolTypes, DL) }
    function DLControlSymbols(): seq<nat> { Positions(symbolTypes, Control) }
    function BeaconSymbols(): seq<nat> { Positions(symbolTypes, Beacon) }

    function NumPilotSyms(): nat { |PilotSymbols()| }
    function NumULSyms(): nat { |ULSymbols()| }
    function NumDLSyms(): nat { |DLSymbols()| }
    function NumDlControlSyms(): nat { |DLControlSymbols()| }
    function NumULCalSyms(): nat { |Positions(symbolTypes, CalUL)| }
    function NumDLCalSyms(): nat { |Positions(symbolTypes, CalDL)| }

    /** DL symbols that carry data rather than pilots. */
    function NumDlDataSyms(): nat
    {
      if clientDlPilotSymbols <= NumDLSyms() then NumDLSyms() - clientDlPilotSymbols else 0
    }

    /** The last beacon symbol, or -1 when the schedule has none. */
    function BeaconSymbolLast(): int
    {
      if |BeaconSymbols()| > 0 then BeaconSymbols()[|BeaconSymbols()| - 1] else -1
    }

    /** Index of `s` among the UL symbols (the SIZE_MAX answer is None). */
    function GetULSymbolIdx(s: nat): Option<nat> { IndexOf(ULSymbols(), s) }

    /** Index of `s` among the DL symbols (the SIZE_MAX answer is None). */
    function GetDLSymbolIdx(s: nat): Option<nat> { IndexOf(DLSymbols(), s) }

    function IsPilot(s: nat): bool { GetSymbolType(s) == Pilot }
    function IsCalDlPilot(s: nat): bool { GetSymbolType(s) == CalDL }
    function IsCalUlPilot(s: nat): bool { GetSymbolType(s) == CalUL }

    /** Packets of pilot symbols received per frame. */
    function PilotPktsPerFrame(): nat { MulNat(bsAntNum, NumPilotSyms()) }

    /** Packets of reciprocity-calibration symbols received per frame. */
    function ReciprocityPktsPerFrame(): nat
      requires bfAntNum <= bsAntNum
    {
      MulNat(NumULCalSyms(), bfAntNum) + MulNat(NumDLCalSyms(), bsAntNum - bfAntNum)
    }

    /** All packets received per frame. */
    function RxPktsPerFrame(): nat
      requires bfAntNum <= bsAntNum
    {
      PilotPktsPerFrame() + ReciprocityPktsPerFrame() + MulNat(bsAntNum, NumULSyms())
    }

    /** What the scheduler and the worker need of a configuration. */
    predicate Valid()
    {
      && frameWnd > 0
      && scheduleQueues > 0
      && fftBlockSize > 0
      && encodeBlockSize > 0
      && bfAntNum <= bsAntNum
      && clientDlPilotSymbols <= NumDLSyms()
    }
  }

  lemma ULSymbolIdx(c: Config, i: nat)
    requires i < c.NumULSyms()
    ensures c.GetULSymbolIdx(c.ULSymbols()[i]) == Some(i)
  {
    PositionsSpec(c.symbolTypes, UL);
    IndexOfAscending(c.ULSymbols(), i);
  }

  lemma DLSymbolIdx(c: Config, i: nat)
    requires i < c.NumDLSyms()
    ensures c.GetDLSymbolIdx(c.DLSymbols()[i]) == Some(i)
  {
    PositionsSpec(c.symbolTypes, DL);
    IndexOfAscending(c.DLSymbols(), i);
  }
}
