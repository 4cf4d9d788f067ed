/**
 * The framing decisions of a UE radio worker driving a UHD radio: which
 * burst flags each uplink and pilot transmission carries, which received
 * symbols are published, and the receive loop's frame/symbol counter with
 * its periodic beacon re-synchronisation.
 *
 * Radio calls are inputs: the receive loop takes, per iteration, what the
 * transmit attempt returned, whether a full symbol was received and when,
 * and the beacon correlation results.
 */
module TxRxWorkerClientUhd {
  import opened Configuration

  // ---------------------------------------------------------------------
  // Transmit burst flags
  // ---------------------------------------------------------------------

  datatype TxFlags = TxFlagNone | StartTransmit | EndTransmit | StartEndTransmit

  /** The flag for a symbol that starts and/or ends a burst. */
  function BurstFlags(start: bool, end: bool): (f: TxFlags)
  {
    if start && end then StartEndTransmit
    else if start then StartTransmit
    else if end then EndTransmit
    else TxFlagNone
  }

  predicate StartsBurst(f: TxFlags) { f == StartTransmit || f == StartEndTransmit }
  predicate EndsBurst(f: TxFlags) { f == EndTransmit || f == StartEndTransmit }

  /**
   * The flag of the `idx`-th UL symbol: it starts a burst unless the UL
   * symbol before it is adjacent, and ends one unless the UL symbol after
   * it is adjacent. The first symbol's "previous" and the last symbol's
   * "next" default to the symbol itself.
   */
  function UplinkSymbolFlags(ul: seq<nat>, idx: nat): (f: TxFlags)
    requires idx < |ul|
    ensures idx == 0 ==> StartsBurst(f)
    ensures idx + 1 == |ul| ==> EndsBurst(f)
    ensures f == TxFlagNone <==> 0 < idx && idx + 1 < |ul| && ul[idx - 1] + 1 == ul[idx] && ul[idx] + 1 == ul[idx + 1]
  {
    var sym := ul[idx];
    var prev := if idx != 0 then ul[idx - 1] else sym;
    var next := if idx + 1 != |ul| then ul[idx + 1] else sym;
    BurstFlags(prev + 1 != sym, sym + 1 != next)
  }

  /**
   * Over the frame schedule, a UL symbol starts a burst exactly when the
   * symbol before it in the frame is not UL (or it is the frame's first),
   * and ends one exactly when the symbol after it is not UL (or it is the
   * frame's last).
   */
  lemma UplinkFlagsFollowSchedule(c: Config, idx: nat)
    requires idx < c.NumULSyms()
    ensures var s := c.ULSymbols()[idx];
      && (StartsBurst(UplinkSymbolFlags(c.ULSymbols(), idx)) <==> s == 0 || c.GetSymbolType(s - 1) != UL)
      && (EndsBurst(UplinkSymbolFlags(c.ULSymbols(), idx)) <==> s + 1 == c.NumTotalSyms() || c.GetSymbolType(s + 1) != UL)
  {
    var ul := c.ULSymbols();
    PositionsSpec(c.symbolTypes, UL);
    PreviousPosition(c.symbolTypes, ul, UL, idx);
    NextPosition(c.symbolTypes, ul, UL, idx);
  }

  /**
   * In the ascending list of all positions of type `t`, the entry before
   * position `ps[idx]` is one below it exactly when the symbol just before
   * it has type `t`.
   */
  lemma PreviousPosition(types: seq<SymbolType>, ps: seq<nat>, t: SymbolType, idx: nat)
    requires forall k :: 0 <= k < |ps| ==> ps[k] < |types| && types[ps[k]] == t
    requires forall k, l :: 0 <= k < l < |ps| ==> ps[k] < ps[l]
    requires forall p :: 0 <= p < |types| && types[p] == t ==> p in ps
    requires idx < |ps|
    ensures (idx > 0 && ps[idx - 1] + 1 == ps[idx]) <==> (ps[idx] > 0 && types[ps[idx] - 1] == t)
  {
    if ps[idx] > 0 && types[ps[idx] - 1] == t {
      var k :| 0 <= k < |ps| && ps[k] == ps[idx] - 1;
      AscendingNeighbour(ps, k, idx);
    }
  }

  /**
   * Likewise the entry after `ps[idx]` is one above it exactly when the
   * symbol just after it has type `t`.
   */
  lemma NextPosition(types: seq<SymbolType>, ps: seq<nat>, t: SymbolType, idx: nat)
    requires forall k :: 0 <= k < |ps| ==> ps[k] < |types| && types[ps[k]] == t
    requires forall k, l :: 0 <= k < l < |ps| ==> ps[k] < ps[l]
    requires forall p :: 0 <= p < |types| && types[p] == t ==> p in ps
    requires idx < |ps|
    ensures (idx + 1 < |ps| && ps[idx] + 1 == ps[idx + 1]) <==> (ps[idx] + 1 < |types| && types[ps[idx] + 1] == t)
  {
    if ps[idx] + 1 < |types| && types[ps[idx] + 1] == t {
      var k :| 0 <= k < |ps| && ps[k] == ps[idx] + 1;
      AscendingNeighbour(ps, idx, k);
    }
  }

  /** In a strictly ascending list, a value one above another sits right after it. */
  lemma AscendingNeighbour(xs: seq<nat>, i: nat, j: nat)
    requires forall k, l :: 0 <= k < l < |xs| ==> xs[k] < xs[l]
    requires i < |xs| && j < |xs| && xs[i] + 1 == xs[j]
    ensures j == i + 1
  {
    assert i < j;
    var m := i + 1;
    assert xs[i] < xs[m] <= xs[j];
  }

  /** One transmission handed to the radio. */
  datatype TxRequest = TxRequest(radio: nat, symbol: nat, flags: TxFlags, time: int)

  /**
   * The transmit time of a symbol: the frame's time base, plus the transmit
   * frame's offset (the frame moved ahead by `txFrameDelta`) and the symbol's
   * offset within it, minus the radio's transmit advance.
   */
  function TxTime(c: Config, time0: int, frame: nat, txFrameDelta: nat, symbol: nat, sampsPerSymbol: nat, advance: int): int
  {
    time0 + MulNat(frame + txFrameDelta, MulNat(sampsPerSymbol, c.NumTotalSyms())) + MulNat(symbol, sampsPerSymbol) - advance
  }

  /** All UL symbols of a frame for one radio, in order, each with its burst flag. */
  method TxUplinkSymbols(c: Config, radioId: nat, frameId: nat, time0: int, txFrameDelta: nat, sampsPerSymbol: nat, advance: int)
    returns (txs: seq<TxRequest>)
    ensures |txs| == c.NumULSyms()
    ensures forall i :: 0 <= i < |txs| ==>
      txs[i] == TxRequest(radioId, c.ULSymbols()[i], UplinkSymbolFlags(c.ULSymbols(), i),
                          TxTime(c, time0, frameId, txFrameDelta, c.ULSymbols()[i], sampsPerSymbol, advance))
  {
    var ul := c.ULSymbols();
    txs := [];
    for idx := 0 to |ul|
      invariant |txs| == idx
      invariant forall i :: 0 <= i < idx ==>
        txs[i] == TxRequest(radioId, ul[i], UplinkSymbolFlags(ul, i), TxTime(c, time0, frameId, txFrameDelta, ul[i], sampsPerSymbol, advance))
    {
      var sym := ul[idx];
      var startTx := false;
      var endTx := false;
      var prev := sym;
      var next := sym;
      if idx != 0 {
        prev := ul[idx - 1];
      }
      if idx + 1 != |ul| {
        next := ul[idx + 1];
      }
      if prev + 1 != sym {
        startTx := true;
      }
      if sym + 1 != next {
        endTx := true;
      }
      var flags := BurstFlags(startTx, endTx);
      assert flags == UplinkSymbolFlags(ul, idx);
      var txTime := time0 + MulNat(frameId + txFrameDelta, MulNat(sampsPerSymbol, c.NumTotalSyms())) + MulNat(sym, sampsPerSymbol) - advance;
      var req := TxRequest(radioId, sym, flags, txTime);
      assert req == TxRequest(radioId, ul[idx], UplinkSymbolFlags(ul, idx), TxTime(c, time0, frameId, txFrameDelta, ul[idx], sampsPerSymbol, advance));
      txs := txs + [req];
    }
  }

  /**
   * The flag of a pilot: it starts a burst and, on the interface's last
   * channel, also ends it unless the first UL symbol directly follows.
   */
  function PilotFlags(pilotChannel: nat, channels: nat, ul: seq<nat>, pilotSymbol: nat): (f: TxFlags)
    ensures StartsBurst(f)
    ensures pilotChannel + 1 != channels ==> f == StartTransmit
  {
    if pilotChannel + 1 == channels then
      if |ul| > 0 && pilotSymbol + 1 == ul[0] then StartTransmit else StartEndTransmit
    else StartTransmit
  }

  /**
   * Over the frame schedule, the last channel's pilot leaves its burst open
   * exactly when the symbol after it is the frame's first UL symbol.
   */
  lemma PilotFlagsFollowSchedule(c: Config, channels: nat, pilotSymbol: nat)
    requires channels > 0
    ensures (PilotFlags(channels - 1, channels, c.ULSymbols(), pilotSymbol) == StartTransmit)
      <==> (pilotSymbol + 1 < c.NumTotalSyms() && c.GetSymbolType(pilotSymbol + 1) == UL
            && forall s :: 0 <= s <= pilotSymbol ==> c.GetSymbolType(s) != UL)
  {
    var ul := c.ULSymbols();
    PositionsSpec(c.symbolTypes, UL);
    if |ul| > 0 {
      forall s | 0 <= s < c.NumTotalSyms() && c.GetSymbolType(s) == UL
        ensures ul[0] <= s
      {
        var k :| 0 <= k < |ul| && ul[k] == s;
        if k > 0 {
          assert ul[0] < ul[k];
        }
      }
      assert c.GetSymbolType(ul[0]) == UL;
    }
  }

  /**
   * One pilot: the radio and channel of antenna `pilotAnt`, the pilot
   * samples on that channel and zeros on the others (`pilotOn[ch]`), and the
   * pilot's flag and transmit time.
   */
  method TxPilot(c: Config, pilotAnt: nat, channels: nat, frameId: nat, time0: int, txFrameDelta: nat,
                 sampsPerSymbol: nat, pilotSymbol: nat, advance: int)
    returns (pilotOn: seq<bool>, tx: TxRequest)
    requires channels > 0
    ensures |pilotOn| == channels
    ensures forall ch :: 0 <= ch < channels ==> (pilotOn[ch] <==> ch == pilotAnt % channels)
    ensures tx == TxRequest(pilotAnt / channels, pilotSymbol, PilotFlags(pilotAnt % channels, channels, c.ULSymbols(), pilotSymbol),
                            TxTime(c, time0, frameId, txFrameDelta, pilotSymbol, sampsPerSymbol, advance))
  {
    var pilotChannel := pilotAnt % channels;
    var radio := pilotAnt / channels;
    pilotOn := [];
    for ch := 0 to channels
      invariant |pilotOn| == ch
      invariant forall j :: 0 <= j < ch ==> (pilotOn[j] <==> j == pilotChannel)
    {
      pilotOn := pilotOn + [ch == pilotChannel];
    }
    var ul := c.ULSymbols();
    var flags := StartEndTransmit;
    if pilotChannel + 1 == channels {
      if |ul| > 0 {
        var firstUl := ul[0];
        if pilotSymbol + 1 == firstUl {
          flags := StartTransmit;
        }
      }
    } else {
      flags := StartTransmit;
    }
    var txTime := time0 + MulNat(frameId + txFrameDelta, MulNat(sampsPerSymbol, c.NumTotalSyms())) + MulNat(pilotSymbol, sampsPerSymbol) - advance;
    tx := TxRequest(radio, pilotSymbol, flags, txTime);
  }

  // ---------------------------------------------------------------------
  // Receive
  // ---------------------------------------------------------------------

  /** Received symbols are published as packets only for beacon and downlink symbols. */
  function IsRxSymbol(c: Config, symbol: nat): bool
  {
    var t := c.GetSymbolType(symbol);
    t == Beacon || t == DL
  }

  /** The published symbols are exactly the frame's beacon and DL positions. */
  lemma IsRxSymbolSpec(c: Config, symbol: nat)
    ensures IsRxSymbol(c, symbol) <==> symbol in c.BeaconSymbols() || symbol in c.DLSymbols()
  {
    PositionsSpec(c.symbolTypes, Beacon);
    PositionsSpec(c.symbolTypes, DL);
    if symbol in c.BeaconSymbols() {
      var k :| 0 <= k < |c.BeaconSymbols()| && c.BeaconSymbols()[k] == symbol;
    }
    if symbol in c.DLSymbols() {
      var k :| 0 <= k < |c.DLSymbols()| && c.DLSymbols()[k] == symbol;
    }
  }

  /** A re-sync adjustment beyond this many samples is ignored. */
  const MaxBeaconAdjust: int := 5
  /** Consecutive missed beacons while re-syncing before the worker gives up. */
  const ReSyncRetryCount: nat := 1000000

  function Abs(x: int): nat { if x < 0 then -x else x }

  /** Radio parameters of the receive loop. */
  datatype UeParams = UeParams(
    frameSyncPeriod: nat,  // frames between re-syncs
    beaconLen: int,
    zeroPrefix: int)       // samples of zero prefix before the beacon

  /** What one iteration of the receive loop learns from the radio. */
  datatype RxInput = RxInput(
    txStatus: nat,   // what the transmit attempt returned (0: nothing sent)
    received: bool,  // a full symbol was received
    rxTime: int,     // its receive time
    syncOk: bool,    // the first-sync check found a beacon on every channel
    beaconSync: int) // beacon correlation index on the sync channel (-1: none)

  /** The loop's variables and the worker fields it writes. */
  datatype RxState = RxState(
    frame: nat, symbol: nat, time0: int, rxTime: int,
    resync: bool, retry: nat, success: nat,
    doResync: bool, adjustTx: int, rxTimeUe: int)

  /**
   * How the loop goes on: `Ongoing` (it would continue), `StopsSystem` (it
   * clears the system's running flag and ends), `Throws` (it raises an
   * error).
   */
  datatype RxStatus = Ongoing | StopsSystem | Throws

  /**
   * The condition under which the receive loop takes its transmit time base
   * from a received symbol, as written: the frame test is repeated and the
   * symbol is never tested.
   */
  predicate FirstSyncAsWritten(frame: nat, symbol: nat, iface: nat)
  {
    (frame == 0) && (frame == 0) && (iface == 0)
  }

  /** The evidently intended condition: the first symbol of the first frame. */
  predicate FirstSync(frame: nat, symbol: nat, iface: nat)
  {
    frame == 0 && symbol == 0 && iface == 0
  }

  /** The two conditions disagree on every later symbol of frame 0. */
  lemma FirstSyncAsWrittenDiffers()
    ensures FirstSyncAsWritten(0, 1, 0) && !FirstSync(0, 1, 0)
  {
  }

  /** The next symbol: after the last symbol of a frame, the first of the next frame. */
  function Advance(c: Config, s: RxState): (r: RxState)
    ensures r == s.(symbol := r.symbol, frame := r.frame)
    ensures s.symbol < c.NumTotalSyms() ==> r.symbol < c.NumTotalSyms()
    ensures r.frame == s.frame + 1 <==> s.symbol + 1 == c.NumTotalSyms()
    ensures r.frame == s.frame + 1 ==> r.symbol == 0
    ensures r.frame == s.frame ==> r.symbol == s.symbol + 1
  {
    if s.symbol + 1 == c.NumTotalSyms() then s.(symbol := 0, frame := s.frame + 1)
    else s.(symbol := s.symbol + 1)
  }

  /**
   * A beacon while re-syncing: when found, the transmit adjustment is taken
   * and applied; it counts as a success (re-sync done, retries cleared) only
   * when small enough. When missed, one more retry, and too many stop the
   * system.
   */
  function Resync(p: UeParams, s: RxState, sync: int): (r: (RxStatus, RxState))
    ensures r.1 == s.(resync := r.1.resync, retry := r.1.retry, success := r.1.success, doResync := r.1.doResync, adjustTx := r.1.adjustTx)
  {
    if sync >= 0 then
      var adjust := sync - p.beaconLen - p.zeroPrefix;
      var s1 := s.(adjustTx := adjust, doResync := true);
      if Abs(adjust) > MaxBeaconAdjust then (Ongoing, s1)
      else (Ongoing, s1.(success := s.success + 1, resync := false, retry := 0))
    else
      var s1 := s.(retry := s.retry + 1);
      if s1.retry > ReSyncRetryCount then (StopsSystem, s1) else (Ongoing, s1)
  }

  /**
   * A published symbol: the first-sync point takes the transmit time base
   * (and raises an error when the beacon check fails), the last beacon
   * symbol of every `frameSyncPeriod`-th frame requests a re-sync, and a
   * pending re-sync is attempted on the last beacon symbol.
   */
  function OnPackets(c: Config, p: UeParams, s: RxState, inp: RxInput, asWritten: bool): (r: (RxStatus, RxState))
    requires p.frameSyncPeriod > 0
    ensures r.1.frame == s.frame && r.1.symbol == s.symbol && r.1.rxTime == s.rxTime && r.1.rxTimeUe == s.rxTimeUe
  {
    var first := if asWritten then FirstSyncAsWritten(s.frame, s.symbol, 0) else FirstSync(s.frame, s.symbol, 0);
    var s1 := if first then s.(time0 := s.rxTime) else s;
    if first && !inp.syncOk then (Throws, s1)
    else
      var beacon := s.symbol as int == c.BeaconSymbolLast();
      var s2 := if beacon && s.frame / p.frameSyncPeriod > 0 && s.frame % p.frameSyncPeriod == 0 then s1.(resync := true) else s1;
      if s2.resync && beacon then Resync(p, s2, inp.beaconSync) else (Ongoing, s2)
  }

  /**
   * One iteration of the receive loop: stop past the frames to test; once a
   * time base exists, a transmit attempt first (which also drops the
   * re-sync request to the transmitter) and, if it sent something, nothing
   * else this time; otherwise receive one symbol, handle it if published,
   * record the receive time and move to the next symbol.
   */
  function RxStep(c: Config, p: UeParams, s: RxState, inp: RxInput, asWritten: bool): (r: (RxStatus, RxState))
    requires p.frameSyncPeriod > 0
  {
    if c.framesToTest > 0 && s.frame > c.framesToTest then (StopsSystem, s)
    else
      var called := s.time0 != 0;
      var txStatus := if called then inp.txStatus else 0;
      var s1 := if called then s.(doResync := false) else s;
      if txStatus != 0 then (Ongoing, s1) else ReceiveStep(c, p, s1, inp, asWritten)
  }

  /**
   * The receive half of an iteration: one symbol is received, handled if
   * published, its time recorded, and the counter moves to the next symbol.
   */
  function ReceiveStep(c: Config, p: UeParams, s: RxState, inp: RxInput, asWritten: bool): (r: (RxStatus, RxState))
    requires p.frameSyncPeriod > 0
  {
    var s1 := if inp.received then s.(rxTime := inp.rxTime) else s;
    var h := if inp.received && IsRxSymbol(c, s.symbol) then OnPackets(c, p, s1, inp, asWritten) else (Ongoing, s1);
    if h.0 != Ongoing then h
    else (Ongoing, Advance(c, h.1.(rxTimeUe := h.1.rxTime)))
  }

  /**
   * The loop over all inputs, as written (with the first-sync condition of
   * the source), ending early when an iteration stops the system or throws.
   */
  function RxRun(c: Config, p: UeParams, s: RxState, inputs: seq<RxInput>): (r: (RxStatus, RxState))
    requires p.frameSyncPeriod > 0
    decreases |inputs|
  {
    if |inputs| == 0 then (Ongoing, s)
    else
      var t := RxStep(c, p, s, inputs[0], true);
      if t.0 != Ongoing then t else RxRun(c, p, t.1, inputs[1..])
  }

  // Properties of one iteration, under either first-sync condition

  /**
   * The symbol counter stays inside the frame; the frame counter moves by
   * one exactly when the symbol wraps to 0, and neither moves when the
   * iteration transmitted instead of receiving.
   */
  lemma RxStepRollover(c: Config, p: UeParams, s: RxState, inp: RxInput, asWritten: bool)
    requires p.frameSyncPeriod > 0 && s.symbol < c.NumTotalSyms()
    ensures var r := RxStep(c, p, s, inp, asWritten);
      var transmitted := s.time0 != 0 && inp.txStatus != 0;
      r.0 == Ongoing ==>
        && (transmitted ==> r.1.frame == s.frame && r.1.symbol == s.symbol)
        && (!transmitted ==> r.1.symbol == if s.symbol + 1 == c.NumTotalSyms() then 0 else s.symbol + 1)
        && (!transmitted ==> (r.1.frame == s.frame + 1 <==> s.symbol + 1 == c.NumTotalSyms()))
        && (!transmitted && s.symbol + 1 < c.NumTotalSyms() ==> r.1.frame == s.frame)
  {
  }

  /**
   * A re-sync starts only on the last beacon symbol of a frame whose number
   * is a positive multiple of the re-sync period.
   */
  lemma RxStepResyncTrigger(c: Config, p: UeParams, s: RxState, inp: RxInput, asWritten: bool)
    requires p.frameSyncPeriod > 0
    ensures var r := RxStep(c, p, s, inp, asWritten);
      !s.resync && r.1.resync ==>
        && s.symbol as int == c.BeaconSymbolLast()
        && s.frame > 0 && s.frame % p.frameSyncPeriod == 0
  {
    if s.frame % p.frameSyncPeriod == 0 && s.frame / p.frameSyncPeriod > 0 {
      assert s.frame >= p.frameSyncPeriod;
    }
  }

  /**
   * A found beacon during a re-sync always hands its adjustment to the
   * transmitter; a small one completes the re-sync and clears the retries,
   * a large one leaves the re-sync pending. A missed beacon adds a retry,
   * and passing the retry limit stops the system.
   */
  lemma ResyncOutcome(p: UeParams, s: RxState, sync: int)
    ensures var r := Resync(p, s, sync);
      && (sync >= 0 ==>
            && r.0 == Ongoing && r.1.doResync && r.1.adjustTx == sync - p.beaconLen - p.zeroPrefix
            && (Abs(r.1.adjustTx) <= MaxBeaconAdjust ==> !r.1.resync && r.1.retry == 0 && r.1.success == s.success + 1)
            && (Abs(r.1.adjustTx) > MaxBeaconAdjust ==> r.1.resync == s.resync && r.1.retry == s.retry && r.1.success == s.success))
      && (sync < 0 ==>
            && r.1.retry == s.retry + 1 && r.1.resync == s.resync && r.1.doResync == s.doResync
            && (r.0 == StopsSystem <==> s.retry + 1 > ReSyncRetryCount)
            && r.0 != Throws)
  {
  }

  /**
   * With the intended condition, the transmit time base is taken only from
   * the first symbol of frame 0.
   */
  lemma FirstSyncOnce(c: Config, p: UeParams, s: RxState, inp: RxInput)
    requires p.frameSyncPeriod > 0
    ensures var r := RxStep(c, p, s, inp, false);
      r.1.time0 != s.time0 ==> s.frame == 0 && s.symbol == 0
  {
  }

  /**
   * As written, a received downlink symbol later in frame 0 retakes the
   * transmit time base from its own receive time (and re-runs the beacon
   * check on it), even when a time base was already taken; the intended
   * condition leaves the time base alone.
   */
  lemma FirstSyncAsWrittenRetakes(c: Config, p: UeParams, s: RxState, inp: RxInput)
    requires p.frameSyncPeriod > 0
    requires s.frame == 0 && s.symbol == 1 && inp.txStatus == 0
    requires c.GetSymbolType(1) == DL && inp.received && inp.syncOk
    ensures RxStep(c, p, s, inp, true).1.time0 == inp.rxTime
    ensures RxStep(c, p, s, inp, false).1.time0 == s.time0
  {
    assert IsRxSymbol(c, 1);
  }

  class ClientWorker {
    var running: bool    // the worker's own running flag
    var doResync: bool   // the transmitter should apply `adjustTx`
    var adjustTx: int
    var rxTimeUe: int    // the last receive time

    constructor ()
      ensures !running && !doResync && adjustTx == 0 && rxTimeUe == 0
    {
      running := false;
      doResync := false;
      adjustTx := 0;
      rxTimeUe := 0;
    }

    /** The loop state at the start: frame 0, symbol 0, no time base. */
    function InitialRx(): RxState
      reads this
    {
      RxState(0, 0, 0, 0, false, 0, 0, doResync, adjustTx, rxTimeUe)
    }

    /**
     * The receive loop after the initial beacon search. A worker with no
     * interface exits at once; more than one interface is an error; with
     * one it runs RxRun over the inputs (the system stops it when they run
     * out) and leaves its fields as the loop left them.
     */
    method DoTxRx(c: Config, p: UeParams, numInterfaces: nat, inputs: seq<RxInput>) returns (status: RxStatus, st: RxState)
      requires p.frameSyncPeriod > 0
      modifies this
      ensures !running
      ensures numInterfaces == 0 ==> status == Ongoing && st == old(InitialRx())
      ensures numInterfaces > 1 ==> status == Throws
      ensures numInterfaces == 1 ==>
        && (status, st) == RxRun(c, p, old(InitialRx()), inputs)
        && doResync == st.doResync && adjustTx == st.adjustTx && rxTimeUe == st.rxTimeUe
    {
      running := true;
      st := InitialRx();
      if numInterfaces == 0 {
        running := false;
        return Ongoing, st;
      } else if numInterfaces > 1 {
        running := false;
        return Throws, st;
      }
      var rxFrameId: nat := 0;
      var rxSymbolId: nat := 0;
      var time0: int := 0;
      var rxTime: int := 0;
      var resync := false;
      var resyncRetryCnt: nat := 0;
      var resyncSuccess: nat := 0;
      ghost var init := old(InitialRx());
      status := Ongoing;
      var k := 0;
      while k < |inputs|
        invariant 0 <= k <= |inputs| && status == Ongoing
        invariant RxRun(c, p, RxState(rxFrameId, rxSymbolId, time0, rxTime, resync, resyncRetryCnt, resyncSuccess, doResync, adjustTx, rxTimeUe), inputs[k..])
                  == RxRun(c, p, init, inputs)
      {
        assert inputs[k..][1..] == inputs[k + 1..];
        ghost var cur := RxState(rxFrameId, rxSymbolId, time0, rxTime, resync, resyncRetryCnt, resyncSuccess, doResync, adjustTx, rxTimeUe);
        status, rxFrameId, rxSymbolId, time0, rxTime, resync, resyncRetryCnt, resyncSuccess :=
          RxIteration(c, p, inputs[k], rxFrameId, rxSymbolId, time0, rxTime, resync, resyncRetryCnt, resyncSuccess);
        if status != Ongoing {
          assert RxRun(c, p, cur, inputs[k..]) == (status, RxState(rxFrameId, rxSymbolId, time0, rxTime, resync, resyncRetryCnt, resyncSuccess, doResync, adjustTx, rxTimeUe));
          break;
        }
        k := k + 1;
      }
      st := RxState(rxFrameId, rxSymbolId, time0, rxTime, resync, resyncRetryCnt, resyncSuccess, doResync, adjustTx, rxTimeUe);
      running := false;
    }

    /**
     * One pass of the receive loop with a single interface (so the
     * interface index is always 0), on the loop's variables.
     */
    method RxIteration(c: Config, p: UeParams, inp: RxInput, frame: nat, symbol: nat, time0: int, rxTime: int,
                       resync: bool, retry: nat, success: nat)
      returns (status: RxStatus, nextFrame: nat, nextSymbol: nat, newTime0: int, newRxTime: int,
               newResync: bool, newRetry: nat, newSuccess: nat)
      requires p.frameSyncPeriod > 0
      modifies this`doResync, this`adjustTx, this`rxTimeUe
      ensures (status, RxState(nextFrame, nextSymbol, newTime0, newRxTime, newResync, newRetry, newSuccess, doResync, adjustTx, rxTimeUe))
              == RxStep(c, p, RxState(frame, symbol, time0, rxTime, resync, retry, success, old(doResync), old(adjustTx), old(rxTimeUe)), inp, true)
    {
      status := Ongoing;
      nextFrame, nextSymbol, newTime0, newRxTime, newResync, newRetry, newSuccess := frame, symbol, time0, rxTime, resync, retry, success;
      if c.framesToTest > 0 && frame > c.framesToTest {
        return StopsSystem, nextFrame, nextSymbol, newTime0, newRxTime, newResync, newRetry, newSuccess;
      }
      var txStatus := 0;
      if time0 != 0 {
        txStatus := inp.txStatus;
        doResync := false;
      }
      if txStatus != 0 {
        return;
      }
      status, nextFrame, nextSymbol, newTime0, newRxTime, newResync, newRetry, newSuccess :=
        ReceiveSymbol(c, p, inp, frame, symbol, time0, rxTime, resync, retry, success);
    }

    /** The receive half of an iteration, on the loop's variables. */
    method ReceiveSymbol(c: Config, p: UeParams, inp: RxInput, frame: nat, symbol: nat, time0: int, rxTime: int,
                         resync: bool, retry: nat, success: nat)
      returns (status: RxStatus, nextFrame: nat, nextSymbol: nat, newTime0: int, newRxTime: int,
               newResync: bool, newRetry: nat, newSuccess: nat)
      requires p.frameSyncPeriod > 0
      modifies this`doResync, this`adjustTx, this`rxTimeUe
      ensures (status, RxState(nextFrame, nextSymbol, newTime0, newRxTime, newResync, newRetry, newSuccess, doResync, adjustTx, rxTimeUe))
              == ReceiveStep(c, p, RxState(frame, symbol, time0, rxTime, resync, retry, success, old(doResync), old(adjustTx), old(rxTimeUe)), inp, true)
    {
      status := Ongoing;
      nextFrame, nextSymbol, newTime0, newRxTime, newResync, newRetry, newSuccess := frame, symbol, time0, rxTime, resync, retry, success;
      var localInterface: nat := 0;
      if inp.received {
        newRxTime := inp.rxTime;
      }
      if inp.received && IsRxSymbol(c, symbol) {
        status, newTime0, newResync, newRetry, newSuccess := PublishSymbol(c, p, inp, frame, symbol, time0, newRxTime, resync, retry, success);
        if status != Ongoing {
          return;
        }
      }
      rxTimeUe := newRxTime;
      localInterface := localInterface + 1;
      if localInterface == 1 {
        localInterface := 0;
        nextSymbol := nextSymbol + 1;
        if nextSymbol == c.NumTotalSyms() {
          nextSymbol := 0;
          nextFrame := nextFrame + 1;
        }
      }
    }

    /** A published symbol (OnPackets), on the loop's variables. */
    method PublishSymbol(c: Config, p: UeParams, inp: RxInput, frame: nat, symbol: nat, time0: int, rxTime: int,
                         resync: bool, retry: nat, success: nat)
      returns (status: RxStatus, newTime0: int, newResync: bool, newRetry: nat, newSuccess: nat)
      requires p.frameSyncPeriod > 0
      modifies this`doResync, this`adjustTx
      ensures (status, RxState(frame, symbol, newTime0, rxTime, newResync, newRetry, newSuccess, doResync, adjustTx, rxTimeUe))
              == OnPackets(c, p, RxState(frame, symbol, time0, rxTime, resync, retry, success, old(doResync), old(adjustTx), rxTimeUe), inp, true)
    {
      var localInterface: nat := 0;
      status, newTime0, newResync, newRetry, newSuccess := Ongoing, time0, resync, retry, success;
      if FirstSyncAsWritten(frame, symbol, localInterface) {
        newTime0 := rxTime;
        if !inp.syncOk {
          return Throws, newTime0, newResync, newRetry, newSuccess;
        }
      }
      var beacon := symbol as int == c.BeaconSymbolLast();
      if beacon && frame / p.frameSyncPeriod > 0 && frame % p.frameSyncPeriod == 0 {
        newResync := true;
      }
      if newResync && beacon {
        status, newResync, newRetry, newSuccess := ResyncOnBeacon(p, inp.beaconSync, frame, symbol, newTime0, rxTime, newResync, newRetry, newSuccess);
      }
    }

    /** The re-sync attempt on the last beacon symbol, on the loop's variables. */
    method ResyncOnBeacon(p: UeParams, syncIndex: int, frame: nat, symbol: nat, time0: int, rxTime: int,
                          resync: bool, retry: nat, success: nat)
      returns (status: RxStatus, newResync: bool, newRetry: nat, newSuccess: nat)
      modifies this`doResync, this`adjustTx
      ensures (status, RxState(frame, symbol, time0, rxTime, newResync, newRetry, newSuccess, doResync, adjustTx, rxTimeUe))
              == Resync(p, RxState(frame, symbol, time0, rxTime, resync, retry, success, old(doResync), old(adjustTx), rxTimeUe), syncIndex)
    {
      status, newResync, newRetry, newSuccess := Ongoing, resync, retry, success;
      if syncIndex >= 0 {
        var adjust := syncIndex - p.beaconLen - p.zeroPrefix;
        adjustTx := adjust;
        doResync := true;
        if Abs(adjust) > MaxBeaconAdjust {
          // too large an adjustment: ignored, the re-sync stays pending
        } else {
          newSuccess := success + 1;
          newResync := false;
          newRetry := 0;
        }
      } else {
        newRetry := retry + 1;
        if newRetry > ReSyncRetryCount {
          status := StopsSystem;
        }
      }
    }
  }
}
