/**
 * The base-station coordinator: the master thread that receives completion
 * events from the radio threads, the workers and the MAC thread, keeps
 * per-frame progress counters, and schedules the next pipeline stages
 * (FFT, beamforming, demodulation, decoding on the uplink; encoding,
 * precoding, IFFT and transmission on the downlink).
 *
 * The worker task queues, the TX queue and the MAC request queue are
 * modelled as append-only logs of what the coordinator enqueues.
 */
module Agora {

  import opened Wrappers
  import opened Message
  import opened Configuration
  import FC = FrameCounters
  import opened AgoraPlan

  /** The "no frame yet" value of the per-symbol frame records (SIZE_MAX in the source). */
  const NoFrame: int := -1

  predicate IsRecord(x: int)
  {
    x == NoFrame || x >= 0
  }

  /** `n` records saying "no frame". */
  function NoFrames(n: nat): (r: seq<int>)
    ensures |r| == n && forall i :: 0 <= i < n ==> r[i] == NoFrame
  {
    seq(n, _ => NoFrame)
  }

  /** `n` empty packet queues. */
  function EmptyQueues(n: nat): (r: seq<seq<Tag>>)
    ensures |r| == n && forall i :: 0 <= i < n ==> r[i] == []
  {
    seq(n, _ => [])
  }

  /** `n` zero counts. */
  function Zeros(n: nat): (r: seq<nat>)
    ensures |r| == n && forall i :: 0 <= i < n ==> r[i] == 0
  {
    seq(n, _ => 0)
  }

  /**
   * A demodulation task may only be issued for a frame whose beamforming
   * weights are done and a symbol whose FFT is done; a precoding task only
   * for a frame whose beamforming weights are done.
   */
  ghost predicate Gated(t: Task, beamDone: set<nat>, fftDone: set<(nat, nat)>)
  {
    forall g :: g in t.event.tags ==>
      (t.queue == Demul ==> g.frame in beamDone && (g.frame, g.symbol) in fftDone)
      && (t.queue == Precode ==> g.frame in beamDone)
  }

  /** A transmission of a downlink data symbol is only requested once its IFFT is done. */
  ghost predicate TxGated(e: Event, dlSymbols: seq<nat>, ifftDone: set<(nat, nat)>)
  {
    forall g :: g in e.tags ==> g.symbol in dlSymbols ==> (g.frame, g.symbol) in ifftDone
  }

  ghost predicate AllGated(ts: seq<Task>, beamDone: set<nat>, fftDone: set<(nat, nat)>)
  {
    forall t :: t in ts ==> Gated(t, beamDone, fftDone)
  }

  /** More finished stages never un-gate a task. */
  lemma AllGatedGrow(ts: seq<Task>, b0: set<nat>, f0: set<(nat, nat)>, b1: set<nat>, f1: set<(nat, nat)>)
    requires AllGated(ts, b0, f0) && b0 <= b1 && f0 <= f1
    ensures AllGated(ts, b1, f1)
  {
  }

  ghost predicate AllTxGated(es: seq<Event>, dlSymbols: seq<nat>, ifftDone: set<(nat, nat)>)
  {
    forall e :: e in es ==> TxGated(e, dlSymbols, ifftDone)
  }

  /** The latest frame with beamforming weights, if any, really has them. */
  ghost predicate BeamRecord(last: int, beamDone: set<nat>)
  {
    IsRecord(last) && (last >= 0 ==> last as nat in beamDone)
  }

  /** Every symbol's record is "no frame" or a frame whose stage finished for that symbol. */
  ghost predicate StageRecords(rec: seq<int>, syms: seq<nat>, done: set<(nat, nat)>)
  {
    forall i :: 0 <= i < |rec| && i < |syms| ==>
      IsRecord(rec[i]) && (rec[i] >= 0 ==> (rec[i] as nat, syms[i]) in done)
  }

  /** One record per listed symbol, each "no frame" or a frame. */
  predicate RecordsFor(rec: seq<int>, syms: seq<nat>)
  {
    |rec| == |syms| && forall i :: 0 <= i < |rec| ==> IsRecord(rec[i])
  }

  /** Recording one more finished (frame, symbol) keeps the records true. */
  lemma StageRecordsGrow(rec: seq<int>, syms: seq<nat>, d0: set<(nat, nat)>, d1: set<(nat, nat)>)
    requires StageRecords(rec, syms, d0) && d0 <= d1
    ensures StageRecords(rec, syms, d1)
  {
  }

  /** More finished IFFTs never un-gate a transmission. */
  lemma AllTxGatedGrow(es: seq<Event>, dlSymbols: seq<nat>, d0: set<(nat, nat)>, d1: set<(nat, nat)>)
    requires AllTxGated(es, dlSymbols, d0) && d0 <= d1
    ensures AllTxGated(es, dlSymbols, d1)
  {
  }

  /** The coordinator state an IFFT completion reads and writes. */
  datatype IfftView = IfftView(
    counters: FC.Counters,   // the IFFT stage counters
    rec: seq<int>,           // per DL symbol: last frame whose IFFT finished
    next: nat,               // the next DL symbol to transmit
    tx: seq<Event>,          // the TX requests issued so far
    flags: nat,              // the scheduling flags
    sche: nat)               // the scheduling frontier

  datatype IfftResult = IfftFatal | IfftDone(view: IfftView, checkFrame: bool)

  /**
   * One IFFT task of (frame, symbol) completing, as a function of the state
   * it touches: the fatal outcomes are a symbol that is not a DL symbol and
   * a TX scan that runs past the symbol table.
   */
  function IfftStep(c: Config, v: IfftView, frame: nat, symbol: nat): (r: IfftResult)
    requires c.Valid() && |v.rec| == c.NumDLSyms()
  {
    var t := v.counters.CompleteTask(c.frameWnd, frame, symbol);
    if !t.1 then IfftDone(v.(counters := t.0), false)
    else if c.GetDLSymbolIdx(symbol).None? then IfftFatal
    else IfftSymbolDone(c, v.(counters := t.0), frame, c.GetDLSymbolIdx(symbol).value)
  }

  /**
   * The rest of an IFFT completion once DL symbol `i` of the frame has all
   * its antennas: the record, the TX scan when `i` is the next symbol to
   * transmit, and the symbol count.
   */
  function IfftSymbolDone(c: Config, v: IfftView, frame: nat, i: nat): (r: IfftResult)
    requires c.Valid() && |v.rec| == c.NumDLSyms() && i < |v.rec|
  {
    var w := c.frameWnd;
    var rec := v.rec[i := frame as int];
    var released := if i == v.next then ReleaseCount(rec, i, frame, v.counters.GetSymbolCount(w, frame)) else Some(0);
    if released.None? then IfftFatal
    else
      var k := released.value;
      var tx := v.tx + TxBurst(frame, c.DLSymbols()[i..i + k], c.bsAntNum);
      var s := v.counters.CompleteSymbol(w, frame);
      if s.1 then
        var f := NextSchedule(v.flags, v.sche, FlagDownlinkComplete, c.NumULSyms(), c.NumDLSyms());
        IfftDone(IfftView(s.0, rec, 0, tx, f.0, f.1), true)
      else
        IfftDone(IfftView(s.0, rec, if i == v.next then i + k else v.next, tx, v.flags, v.sche), false)
  }

  // ---------------------------------------------------------------------
  // The main loop's fetch order
  // ---------------------------------------------------------------------

  /**
   * The event batches the main loop fetches: it alternates between the
   * radio/MAC queues and the worker queue, starting with the radio side,
   * until the side whose turn it is has no batch left.
   */
  function Interleave(io: seq<seq<Event>>, work: seq<seq<Event>>): (bs: seq<seq<Event>>)
    ensures |bs| == if |io| <= |work| then 2 * |io| else 2 * |work| + 1
    decreases |io|
  {
    if |io| == 0 then []
    else if |work| == 0 then [io[0]]
    else [io[0], work[0]] + Interleave(io[1..], work[1..])
  }

  /** Fetch 2k is the k-th radio-side batch and fetch 2k+1 the k-th worker batch. */
  lemma {:induction false} InterleaveAt(io: seq<seq<Event>>, work: seq<seq<Event>>, k: nat)
    ensures k < |io| && k <= |work| ==> 2 * k < |Interleave(io, work)| && Interleave(io, work)[2 * k] == io[k]
    ensures k < |io| && k < |work| ==> Interleave(io, work)[2 * k + 1] == work[k]
    decreases k
  {
    if k > 0 && k < |io| && k <= |work| {
      InterleaveAt(io[1..], work[1..], k - 1);
      assert Interleave(io, work)[2 * k] == Interleave(io[1..], work[1..])[2 * (k - 1)];
      if k < |work| {
        assert Interleave(io, work)[2 * k + 1] == Interleave(io[1..], work[1..])[2 * (k - 1) + 1];
      }
    }
  }

  /** The events of a sequence of batches, in order. */
  function Flatten(bs: seq<seq<Event>>): (es: seq<Event>)
  {
    if |bs| == 0 then [] else Flatten(bs[..|bs| - 1]) + bs[|bs| - 1]
  }

  /** The events of the first batches come first. */
  lemma {:induction false} FlattenPrefix(bs: seq<seq<Event>>, n: nat)
    requires n <= |bs|
    ensures Flatten(bs[..n]) <= Flatten(bs)
    decreases |bs|
  {
    if n < |bs| {
      var m := |bs| - 1;
      assert bs[..m][..n] == bs[..n];
      FlattenPrefix(bs[..m], n);
      assert Flatten(bs) == Flatten(bs[..m]) + bs[m];
    } else {
      assert bs[..n] == bs;
    }
  }

  /**
   * Handling the first `count` events of the next batch extends the events
   * handled so far within the first `n + 1` batches, to all of them when
   * the whole batch was handled.
   */
  lemma HandledStep(bs: seq<seq<Event>>, n: nat, handled: seq<Event>, count: nat)
    requires n < |bs| && handled == Flatten(bs[..n]) && count <= |bs[n]|
    ensures handled + bs[n][..count] <= Flatten(bs[..n + 1])
    ensures count == |bs[n]| ==> handled + bs[n][..count] == Flatten(bs[..n + 1])
  {
    assert bs[..n + 1][..n] == bs[..n];
    assert Flatten(bs[..n + 1]) == handled + bs[n];
    assert bs[n][..count] <= bs[n];
    if count == |bs[n]| {
      assert bs[n][..count] == bs[n];
    }
  }

  /**
   * Where the main loop's next fetch lies in the fetch order: after i batches
   * from the radio side and j from the workers, the next one is fetch i + j,
   * and a side that has run dry on its turn ends the fetch order there.
   */
  lemma NextFetch(io: seq<seq<Event>>, work: seq<seq<Event>>, i: nat, j: nat)
    requires j <= i <= j + 1 && i <= |io| && j <= |work|
    ensures i == j && i < |io| ==> i + j < |Interleave(io, work)| && Interleave(io, work)[i + j] == io[i]
    ensures i == j + 1 && j < |work| ==> i + j < |Interleave(io, work)| && Interleave(io, work)[i + j] == work[j]
    ensures (i == j && i == |io|) || (i == j + 1 && j == |work|) ==> i + j == |Interleave(io, work)|
  {
    InterleaveAt(io, work, j);
  }

  /**
   * Handling `count` events of fetch n, after all events of the fetches
   * before it, keeps the events handled a prefix of all events, and
   * handling the whole batch makes them all events of the first n + 1 fetches.
   */
  lemma HandledExtends(bs: seq<seq<Event>>, n: nat, handled: seq<Event>, count: nat)
    requires n < |bs| && handled == Flatten(bs[..n]) && count <= |bs[n]|
    ensures handled + bs[n][..count] <= Flatten(bs)
    ensures count == |bs[n]| ==> handled + bs[n][..count] == Flatten(bs[..n + 1])
  {
    HandledStep(bs, n, handled, count);
    FlattenPrefix(bs, n + 1);
  }

  /**
   * What an IFFT completion promises its caller: the TX log only grows, the
   * schedule frontier moves by at most one frame and only when the frame's
   * last DL symbol is done, and that last symbol sends the TX scan back to
   * the first symbol.
   */
  lemma IfftStepProgress(c: Config, v: IfftView, frame: nat, symbol: nat)
    requires c.Valid() && |v.rec| == c.NumDLSyms() && v.next <= |v.rec|
    ensures var r := IfftStep(c, v, frame, symbol);
      r.IfftDone? ==>
        && v.tx <= r.view.tx
        && |r.view.rec| == |v.rec| && r.view.next <= |r.view.rec|
        && v.sche <= r.view.sche <= v.sche + 1
        && (r.checkFrame ==> r.view.next == 0)
        && (!r.checkFrame ==> r.view.sche == v.sche && r.view.flags == v.flags)
  {
    var t := v.counters.CompleteTask(c.frameWnd, frame, symbol);
    var idx := c.GetDLSymbolIdx(symbol);
    if t.1 && idx.Some? {
      var i := idx.value;
      var rec := v.rec[i := frame as int];
      if i == v.next {
        var released := ReleaseCount(rec, i, frame, t.0.GetSymbolCount(c.frameWnd, frame));
        if released.Some? {
          var tx := v.tx + TxBurst(frame, c.DLSymbols()[i..i + released.value], c.bsAntNum);
          assert v.tx <= tx;
        }
      }
    }
  }

  class Agora {
    const cfg: Config
    const ulSymbols: seq<nat>   // the configuration's UL symbols, in order
    const dlSymbols: seq<nat>   // the configuration's DL symbols, in order

    var running: bool
    var curScheFrame: nat
    var curProcFrame: nat
    var scheduleFlags: nat
    var encodeDeferral: seq<nat>

    var fftQueues: seq<seq<Tag>>           // per frame slot: received packets awaiting FFT
    var fftCreatedCount: nat
    var fftCurFrameForSymbol: seq<int>     // per UL symbol: last frame whose FFT finished
    var encodeCurFrameForSymbol: seq<int>  // per DL symbol: last frame whose encoding finished
    var ifftCurFrameForSymbol: seq<int>    // per DL symbol: last frame whose IFFT finished
    var ifftNextSymbol: nat
    var beamLastFrame: int
    var rcLastFrame: int

    var numPilotPkts: seq<nat>
    var numReciprocityPkts: seq<nat>
    var numPkts: seq<nat>

    var pilotFftCounters: FC.Counters
    var uplinkFftCounters: FC.Counters
    var rcCounters: FC.Counters
    var beamCounters: FC.Counters
    var demulCounters: FC.Counters
    var decodeCounters: FC.Counters
    var tomacCounters: FC.Counters
    var encodeCounters: FC.Counters
    var precodeCounters: FC.Counters
    var ifftCounters: FC.Counters
    var txCounters: FC.Counters
    var macToPhyCounters: FC.Counters

    var taskQueue: seq<Task>     // everything enqueued for the workers
    var txQueue: seq<Event>      // everything enqueued for the radio threads
    var macQueue: seq<Event>     // everything enqueued for the MAC thread

    ghost var beamDone: set<nat>
    ghost var fftDone: set<(nat, nat)>
    ghost var ifftDone: set<(nat, nat)>
    ghost var dlAdmitted: seq<nat>    // frames whose downlink was requested, in order
    ghost var dlScheduled: seq<nat>   // frames whose downlink processing started, in order

    predicate Shaped()
      reads this`fftQueues, this`numPilotPkts, this`numReciprocityPkts, this`numPkts
      reads this`fftCurFrameForSymbol, this`ifftCurFrameForSymbol, this`ifftNextSymbol
    {
      && |fftQueues| == cfg.frameWnd
      && |numPilotPkts| == cfg.frameWnd
      && |numReciprocityPkts| == cfg.frameWnd
      && |numPkts| == cfg.frameWnd
      && |fftCurFrameForSymbol| == |ulSymbols|
      && |ifftCurFrameForSymbol| == |dlSymbols|
      && ifftNextSymbol <= |dlSymbols|
    }

    ghost predicate BeamRecorded()
      reads this`beamLastFrame, this`beamDone
    {
      BeamRecord(beamLastFrame, beamDone)
    }

    /** Every UL symbol's FFT record names a frame whose FFT of that symbol finished. */
    ghost predicate FftRecorded()
      reads this`fftCurFrameForSymbol, this`fftDone
    {
      StageRecords(fftCurFrameForSymbol, ulSymbols, fftDone)
    }

    /** Every DL symbol's IFFT record names a frame whose IFFT of that symbol finished. */
    ghost predicate IfftRecorded()
      reads this`ifftCurFrameForSymbol, this`ifftDone
    {
      StageRecords(ifftCurFrameForSymbol, dlSymbols, ifftDone)
    }

    /** One encode record per DL symbol, each "no frame" or a frame. */
    predicate EncodeRecords()
      reads this`encodeCurFrameForSymbol
    {
      RecordsFor(encodeCurFrameForSymbol, dlSymbols)
    }

    ghost predicate TasksGated()
      reads this`taskQueue, this`beamDone, this`fftDone
    {
      AllGated(taskQueue, beamDone, fftDone)
    }

    ghost predicate TxLogGated()
      reads this`txQueue, this`ifftDone
    {
      AllTxGated(txQueue, dlSymbols, ifftDone)
    }

    /** Downlink frames start in the order they were requested, none lost and none twice. */
    ghost predicate DeferralFifo()
      reads this`dlAdmitted, this`dlScheduled, this`encodeDeferral
    {
      dlAdmitted == dlScheduled + encodeDeferral
    }

    ghost predicate Valid()
      reads this
    {
      && cfg.Valid()
      && ulSymbols == cfg.ULSymbols()
      && dlSymbols == cfg.DLSymbols()
      && Shaped()
      && BeamRecorded() && IsRecord(rcLastFrame) && FftRecorded() && IfftRecorded()
      && EncodeRecords()
      && TasksGated()
      && TxLogGated()
      && DeferralFifo()
    }

    /** What only grows while the coordinator runs; a stopped coordinator stays stopped. */
    twostate predicate Grows()
      reads this
    {
      && (running ==> old(running))
      && old(curScheFrame) <= curScheFrame
      && old(curProcFrame) <= curProcFrame
      && old(taskQueue) <= taskQueue
      && old(txQueue) <= txQueue
      && old(macQueue) <= macQueue
      && old(dlAdmitted) <= dlAdmitted
      && old(dlScheduled) <= dlScheduled
    }

    /** The frame is fully processed in both directions (the completion test of CheckFrameComplete). */
    predicate FrameDone(frame: nat)
      requires cfg.frameWnd > 0
      reads this`ifftCounters, this`txCounters, this`decodeCounters, this`demulCounters, this`tomacCounters
    {
      && ifftCounters.IsLastSymbol(cfg.frameWnd, frame)
      && txCounters.IsLastSymbol(cfg.frameWnd, frame)
      && ((!cfg.enableMac && decodeCounters.IsLastSymbol(cfg.frameWnd, frame))
          || (cfg.uplinkHardDemod && demulCounters.IsLastSymbol(cfg.frameWnd, frame))
          || (cfg.enableMac && tomacCounters.IsLastSymbol(cfg.frameWnd, frame)))
    }

    /** The uplink stage counters as counter initialisation sets them up for the configuration. */
    ghost predicate InitialUplinkCounters()
      reads this`pilotFftCounters, this`uplinkFftCounters, this`rcCounters, this`beamCounters
      reads this`demulCounters, this`decodeCounters, this`tomacCounters
    {
      && pilotFftCounters == FC.Init(cfg.NumPilotSyms(), cfg.bsAntNum)
      && uplinkFftCounters == FC.Init(cfg.NumULSyms(), cfg.bsAntNum)
      && rcCounters == FC.Init(cfg.bsAntNum, 0)
      && beamCounters == FC.Init(cfg.beamEventsPerSymbol, 0)
      && demulCounters == FC.Init(cfg.NumULSyms(), cfg.demulEventsPerSymbol)
      && decodeCounters == FC.Init(cfg.NumULSyms(), CodeblocksPerSymbol(cfg, Uplink))
      && tomacCounters == FC.Init(cfg.NumULSyms(), cfg.spatialStreamsNum)
    }

    /** The downlink stage counters as counter initialisation sets them up (when the frame has DL symbols). */
    ghost predicate InitialDownlinkCounters()
      reads this`encodeCounters, this`precodeCounters, this`ifftCounters, this`txCounters, this`macToPhyCounters
    {
      && encodeCounters == FC.Init(cfg.NumDlDataSyms(), CodeblocksPerSymbol(cfg, Downlink))
      && precodeCounters == FC.Init(cfg.NumDLSyms(), cfg.demulEventsPerSymbol)
      && ifftCounters == FC.Init(cfg.NumDLSyms(), cfg.bsAntNum)
      && txCounters == FC.Init(cfg.NumDlControlSyms() + cfg.NumDLSyms(), cfg.bsAntNum)
      && macToPhyCounters == FC.Init(1, cfg.spatialStreamsNum)
    }

    /**
     * Sets up the coordinator for a configuration: the scheduling flags as
     * if frame 0 had just completed, both frontiers at frame 0, empty queues
     * and receive counts, no frame recorded for any symbol, and the stage
     * counters with their per-frame symbol and task totals (the downlink
     * ones only when the frame has DL symbols).
     */
    constructor (c: Config)
      requires c.Valid()
      ensures Valid() && InitialUplinkCounters()
      ensures cfg.NumDLSyms() > 0 ==> InitialDownlinkCounters()
      ensures cfg == c && running
      ensures curScheFrame == 0 && curProcFrame == 0
      ensures scheduleFlags == SeedFlags(c.NumULSyms(), c.NumDLSyms())
      ensures encodeDeferral == [] && taskQueue == [] && txQueue == [] && macQueue == []
      ensures fftCreatedCount == 0 && ifftNextSymbol == 0
      ensures beamLastFrame == NoFrame && rcLastFrame == NoFrame
      ensures fftCurFrameForSymbol == NoFrames(c.NumULSyms())
      ensures encodeCurFrameForSymbol == NoFrames(c.NumDLSyms())
      ensures ifftCurFrameForSymbol == NoFrames(c.NumDLSyms())
      ensures fftQueues == EmptyQueues(c.frameWnd)
      ensures numPilotPkts == Zeros(c.frameWnd) && numReciprocityPkts == Zeros(c.frameWnd)
      ensures numPkts == Zeros(c.frameWnd)
    {
      cfg := c;
      ulSymbols := c.ULSymbols();
      dlSymbols := c.DLSymbols();
      running := true;
      // The scheduling flags start as if frame 0 had just completed, which
      // seeds them for the configured directions.
      var r := NextSchedule(FlagNone, 0, FlagProcessingComplete, c.NumULSyms(), c.NumDLSyms());
      scheduleFlags := r.0;
      curScheFrame := 0;
      curProcFrame := 0;
      encodeDeferral := [];
      fftQueues := EmptyQueues(c.frameWnd);
      numPilotPkts := Zeros(c.frameWnd);
      numReciprocityPkts := Zeros(c.frameWnd);
      numPkts := Zeros(c.frameWnd);
      ifftNextSymbol := 0;
      beamLastFrame := NoFrame;
      rcLastFrame := NoFrame;
      taskQueue := [];
      txQueue := [];
      macQueue := [];
      beamDone := {};
      fftDone := {};
      ifftDone := {};
      dlAdmitted := [];
      dlScheduled := [];
      fftCreatedCount := 0;
      fftCurFrameForSymbol := NoFrames(c.NumULSyms());
      encodeCurFrameForSymbol := NoFrames(c.NumDLSyms());
      ifftCurFrameForSymbol := NoFrames(c.NumDLSyms());
      pilotFftCounters := FC.Init(c.NumPilotSyms(), c.bsAntNum);
      uplinkFftCounters := FC.Init(c.NumULSyms(), c.bsAntNum);
      rcCounters := FC.Init(c.bsAntNum, 0);
      beamCounters := FC.Init(c.beamEventsPerSymbol, 0);
      demulCounters := FC.Init(c.NumULSyms(), c.demulEventsPerSymbol);
      decodeCounters := FC.Init(c.NumULSyms(), CodeblocksPerSymbol(c, Uplink));
      tomacCounters := FC.Init(c.NumULSyms(), c.spatialStreamsNum);
      if c.NumDLSyms() > 0 {
        encodeCounters := FC.Init(c.NumDlDataSyms(), CodeblocksPerSymbol(c, Downlink));
        precodeCounters := FC.Init(c.NumDLSyms(), c.demulEventsPerSymbol);
        ifftCounters := FC.Init(c.NumDLSyms(), c.bsAntNum);
        txCounters := FC.Init(c.NumDlControlSyms() + c.NumDLSyms(), c.bsAntNum);
        macToPhyCounters := FC.Init(1, c.spatialStreamsNum);
      }
    }

    /**
     * Adds a completion report to the scheduling flags; when both directions
     * of the frame have reported, the scheduling frontier moves on.
     */
    method CheckIncrementScheduleFrame(frame: nat, completed: nat)
      modifies this`scheduleFlags, this`curScheFrame
      ensures (scheduleFlags, curScheFrame) == NextSchedule(old(scheduleFlags), old(curScheFrame), completed, cfg.NumULSyms(), cfg.NumDLSyms())
    {
      scheduleFlags := (scheduleFlags + completed) % 256;
      if scheduleFlags == FlagProcessingComplete {
        curScheFrame := curScheFrame + 1;
        scheduleFlags := FlagNone;
        if cfg.NumULSyms() == 0 {
          scheduleFlags := scheduleFlags + FlagUplinkComplete;
        }
        if cfg.NumDLSyms() == 0 {
          scheduleFlags := scheduleFlags + FlagDownlinkComplete;
        }
      }
    }

    /** Enqueues units 0..n-1 of (frame, symbol) in blocks of `b` units. */
    method EnqueueBlocks(kind: EventType, frame: nat, symbol: nat, n: nat, b: nat)
      requires b > 0 && kind != Demul && kind != Precode && TasksGated()
      modifies this`taskQueue
      ensures TasksGated()
      ensures taskQueue == old(taskQueue) + AsTasks(kind, QueueId(frame), BlockEvents(kind, frame, symbol, n, b))
    {
      var numBlocks := n / b;
      var remainder := n % b;
      if remainder > 0 {
        numBlocks := numBlocks + 1;
      }
      var numTags := b;
      var qid := QueueId(frame);
      var unit := 0;
      ghost var es := BlockEvents(kind, frame, symbol, n, b);
      assert |es| == numBlocks;
      for i := 0 to numBlocks
        invariant i < numBlocks ==> unit == i * b && numTags == b
        invariant taskQueue == old(taskQueue) + AsTasks(kind, qid, es[..i])
        invariant TasksGated()
      {
        if i == numBlocks - 1 && remainder > 0 {
          numTags := remainder;
        }
        assert numTags == BlockLength(i, n, b);
        ghost var first := unit;
        var tags: seq<Tag> := [];
        for j := 0 to numTags
          invariant tags == UnitTags(frame, symbol, first, j)
          invariant unit == first + j
        {
          tags := tags + [Tag(frame, symbol, unit)];
          unit := unit + 1;
        }
        assert Event(kind, tags) == es[i];
        AsTasksStep(kind, qid, es, i);
        taskQueue := taskQueue + [Task(kind, qid, Event(kind, tags))];
        MulDistrib(i, 1, b);
      }
      assert es[..numBlocks] == es;
    }

    /** FFT or IFFT tasks for every antenna of a symbol, `fftBlockSize` antennas per task. */
    method ScheduleAntennas(kind: EventType, frame: nat, symbol: nat)
      requires cfg.Valid() && TasksGated() && (kind == FFT || kind == IFFT)
      modifies this`taskQueue
      ensures TasksGated()
      ensures taskQueue == old(taskQueue) + AsTasks(kind, QueueId(frame), BlockEvents(kind, frame, symbol, cfg.bsAntNum, cfg.fftBlockSize))
    {
      EnqueueBlocks(kind, frame, symbol, cfg.bsAntNum, cfg.fftBlockSize);
    }

    /** Encode or decode tasks for every codeblock of a symbol, `encodeBlockSize` codeblocks per task. */
    method ScheduleCodeblocks(kind: EventType, dir: Direction, frame: nat, symbol: nat)
      requires cfg.Valid() && TasksGated() && (kind == Encode || kind == Decode)
      modifies this`taskQueue
      ensures TasksGated()
      ensures taskQueue == old(taskQueue) + CodeblockTasks(cfg, kind, dir, frame, symbol)
    {
      EnqueueBlocks(kind, frame, symbol, CodeblocksPerSymbol(cfg, dir), cfg.encodeBlockSize);
    }

    /**
     * Per-subcarrier-block tasks of a demodulation, precoding or beamforming
     * stage; demodulation and precoding need the frame's beamforming weights
     * (and demodulation the symbol's FFT) to be done.
     */
    method ScheduleSubcarriers(kind: EventType, frame: nat, symbol: nat)
      requires TasksGated() && (kind == Demul || kind == Precode || kind == Beam)
      requires kind == Demul ==> frame in beamDone && (frame, symbol) in fftDone
      requires kind == Precode ==> frame in beamDone
      modifies this`taskQueue
      ensures TasksGated()
      ensures taskQueue == old(taskQueue) + SubcarrierTasks(cfg, kind, frame, symbol)
    {
      var base: Tag;
      var numEvents: nat;
      var blockSize: nat;
      if kind == Beam {
        base := Tag(frame, 0, 0);
        numEvents := cfg.beamEventsPerSymbol;
        blockSize := cfg.beamBlockSize;
      } else {
        base := Tag(frame, symbol, 0);
        numEvents := cfg.demulEventsPerSymbol;
        blockSize := cfg.demulBlockSize;
      }
      var qid := QueueId(frame);
      ghost var es := SubcarrierEvents(kind, frame, base.symbol, numEvents, blockSize);
      for i := 0 to numEvents
        invariant base == Tag(frame, if kind == Beam then 0 else symbol, i * blockSize)
        invariant taskQueue == old(taskQueue) + AsTasks(kind, qid, es[..i])
        invariant TasksGated()
      {
        AsTasksStep(kind, qid, es, i);
        taskQueue := taskQueue + [Task(kind, qid, Event(kind, [base]))];
        base := base.(unit := base.unit + blockSize);
        MulDistrib(i, 1, blockSize);
      }
      assert es[..numEvents] == es;
    }

    /** One MAC request per spatial stream of a decoded symbol. */
    method ScheduleUsers(frame: nat, symbol: nat)
      modifies this`macQueue
      ensures macQueue == old(macQueue) + UserEvents(PacketToMac, frame, symbol, cfg.spatialStreamsNum)
    {
      ghost var es := UserEvents(PacketToMac, frame, symbol, cfg.spatialStreamsNum);
      var base := Tag(frame, symbol, 0);
      for i := 0 to cfg.spatialStreamsNum
        invariant base == Tag(frame, symbol, i)
        invariant macQueue == old(macQueue) + es[..i]
      {
        assert UnitTags(frame, symbol, i * 1, BlockLength(i, cfg.spatialStreamsNum, 1)) == [base];
        assert es[..i + 1] == es[..i] + [es[i]];
        macQueue := macQueue + [Event(PacketToMac, [base])];
        base := base.(unit := base.unit + 1);
      }
      assert es[..cfg.spatialStreamsNum] == es;
    }

    /** The one broadcast task that generates a frame's control symbols. */
    method ScheduleBroadCastSymbols(frame: nat)
      requires TasksGated()
      modifies this`taskQueue
      ensures TasksGated()
      ensures taskQueue == old(taskQueue) + [BroadcastTask(frame)]
    {
      taskQueue := taskQueue + [Task(Broadcast, QueueId(frame), Event(Broadcast, [Tag(frame, 0, 0)]))];
    }

    /** One TX request per antenna; a DL data symbol must have finished its IFFT. */
    method ScheduleAntennasTX(frame: nat, symbol: nat)
      requires TxLogGated()
      requires symbol in dlSymbols ==> (frame, symbol) in ifftDone
      modifies this`txQueue
      ensures TxLogGated()
      ensures txQueue == old(txQueue) + AntennaTxEvents(frame, symbol, cfg.bsAntNum)
    {
      ghost var es := AntennaTxEvents(frame, symbol, cfg.bsAntNum);
      for antenna := 0 to cfg.bsAntNum
        invariant txQueue == old(txQueue) + es[..antenna]
        invariant TxLogGated()
      {
        assert es[..antenna + 1] == es[..antenna] + [es[antenna]];
        txQueue := txQueue + [Event(PacketTX, [Tag(frame, symbol, antenna)])];
      }
      assert es[..cfg.bsAntNum] == es;
    }

    /**
     * Per-subcarrier tasks of a stage for every listed symbol whose frame
     * record releases it for `frame`, in table order.
     */
    method ScheduleReleased(kind: EventType, frame: nat, rec: seq<int>, syms: seq<nat>, atLeast: bool)
      requires TasksGated() && |rec| == |syms| && (kind == Demul || kind == Precode) && frame in beamDone
      requires kind == Demul ==> forall i :: 0 <= i < |rec| && Releases(rec[i], frame, atLeast) ==> (frame, syms[i]) in fftDone
      modifies this`taskQueue
      ensures TasksGated()
      ensures taskQueue == old(taskQueue) + SubcarrierTasksFor(cfg, kind, frame, ReleasedSymbols(rec, syms, frame, atLeast))
    {
      assert rec[..0] == [] && syms[..0] == [];
      assert taskQueue + [] == taskQueue;
      for i := 0 to |rec|
        invariant TasksGated()
        invariant taskQueue == old(taskQueue) + SubcarrierTasksFor(cfg, kind, frame, ReleasedSymbols(rec[..i], syms[..i], frame, atLeast))
      {
        ReleasedSymbolsStep(rec, syms, frame, atLeast, i);
        ghost var done := ReleasedSymbols(rec[..i], syms[..i], frame, atLeast);
        if Releases(rec[i], frame, atLeast) {
          SubcarrierTasksAppend(cfg, kind, frame, done, syms[i]);
          AppendAssoc(old(taskQueue), SubcarrierTasksFor(cfg, kind, frame, done), SubcarrierTasks(cfg, kind, frame, syms[i]));
          ScheduleSubcarriers(kind, frame, syms[i]);
        } else {
          assert done + [] == done;
        }
      }
      assert rec[..|rec|] == rec && syms[..|syms|] == syms;
    }

    /** What starting a frame's downlink needs of the coordinator state. */
    ghost predicate DownlinkInv()
      reads this`taskQueue, this`beamDone, this`fftDone, this`encodeCurFrameForSymbol, this`beamLastFrame
    {
      && cfg.Valid()
      && dlSymbols == cfg.DLSymbols()
      && TasksGated()
      && EncodeRecords()
      && BeamRecorded()
    }

    /**
     * Precoding of the DL pilot symbols when the frame's beamforming weights
     * are done; otherwise the pilot symbols are marked as ready for the frame.
     */
    method ScheduleDownlinkPilots(frame: nat)
      requires DownlinkInv()
      modifies this`taskQueue, this`encodeCurFrameForSymbol
      ensures DownlinkInv()
      ensures taskQueue == old(taskQueue)
              + (if beamLastFrame == frame as int then SubcarrierTasksFor(cfg, Precode, frame, dlSymbols[..cfg.clientDlPilotSymbols]) else [])
      ensures encodeCurFrameForSymbol
              == PilotRecords(old(encodeCurFrameForSymbol), cfg.clientDlPilotSymbols, frame, beamLastFrame == frame as int)
    {
      ghost var ready := beamLastFrame == frame as int;
      ghost var e0 := encodeCurFrameForSymbol;
      var pilots := cfg.clientDlPilotSymbols;
      ghost var pilotSymbols := dlSymbols[..pilots];
      assert pilotSymbols[..0] == [];
      assert taskQueue + [] == taskQueue;
      for i := 0 to pilots
        invariant TasksGated() && EncodeRecords()
        invariant |encodeCurFrameForSymbol| == |e0|
        invariant ready ==> taskQueue == old(taskQueue) + SubcarrierTasksFor(cfg, Precode, frame, pilotSymbols[..i])
        invariant !ready ==> taskQueue == old(taskQueue)
        invariant forall k :: 0 <= k < |e0| ==> encodeCurFrameForSymbol[k] == (if !ready && k < i then frame as int else e0[k])
      {
        if beamLastFrame == frame as int {
          SubcarrierTasksStep(cfg, Precode, frame, pilotSymbols, i);
          AppendAssoc(old(taskQueue), SubcarrierTasksFor(cfg, Precode, frame, pilotSymbols[..i]), SubcarrierTasks(cfg, Precode, frame, dlSymbols[i]));
          ScheduleSubcarriers(Precode, frame, dlSymbols[i]);
        } else {
          encodeCurFrameForSymbol := encodeCurFrameForSymbol[i := frame];
        }
      }
      assert pilotSymbols[..pilots] == pilotSymbols;
      assert encodeCurFrameForSymbol == PilotRecords(e0, pilots, frame, ready);
      if !ready {
        assert taskQueue + [] == taskQueue;
      }
    }

    /** Encoding of every DL data symbol of the frame. */
    method ScheduleDownlinkData(frame: nat)
      requires cfg.Valid() && dlSymbols == cfg.DLSymbols() && TasksGated()
      modifies this`taskQueue
      ensures TasksGated()
      ensures taskQueue == old(taskQueue) + EncodeTasksFor(cfg, frame, dlSymbols[cfg.clientDlPilotSymbols..])
    {
      var pilots := cfg.clientDlPilotSymbols;
      ghost var dataSymbols := dlSymbols[pilots..];
      assert dataSymbols[..0] == [];
      assert taskQueue + [] == taskQueue;
      for i := pilots to cfg.NumDLSyms()
        invariant TasksGated()
        invariant taskQueue == old(taskQueue) + EncodeTasksFor(cfg, frame, dataSymbols[..i - pilots])
      {
        EncodeTasksStep(cfg, frame, dataSymbols, i - pilots);
        AppendAssoc(old(taskQueue), EncodeTasksFor(cfg, frame, dataSymbols[..i - pilots]), CodeblockTasks(cfg, Encode, Downlink, frame, dlSymbols[i]));
        ScheduleCodeblocks(Encode, Downlink, frame, dlSymbols[i]);
      }
      assert dataSymbols[..cfg.NumDLSyms() - pilots] == dataSymbols;
    }

    /**
     * Starts a frame's downlink: the broadcast task when there are control
     * symbols, the DL pilot symbols, and encoding of every DL data symbol.
     */
    method ScheduleDownlinkProcessing(frame: nat)
      requires DownlinkInv()
      modifies this`taskQueue, this`encodeCurFrameForSymbol
      ensures DownlinkInv()
      ensures taskQueue == old(taskQueue) + DownlinkTasks(cfg, frame, beamLastFrame == frame as int)
      ensures encodeCurFrameForSymbol
              == PilotRecords(old(encodeCurFrameForSymbol), cfg.clientDlPilotSymbols, frame, beamLastFrame == frame as int)
    {
      ghost var ready := beamLastFrame == frame as int;
      ghost var pilots := cfg.clientDlPilotSymbols;
      ghost var broadcast := if cfg.NumDlControlSyms() > 0 then [BroadcastTask(frame)] else [];
      ghost var precode := if ready then SubcarrierTasksFor(cfg, Precode, frame, dlSymbols[..pilots]) else [];
      ghost var encode := EncodeTasksFor(cfg, frame, dlSymbols[pilots..]);
      assert DownlinkTasks(cfg, frame, ready) == broadcast + precode + encode;
      ghost var t0 := taskQueue;
      if cfg.NumDlControlSyms() > 0 {
        ScheduleBroadCastSymbols(frame);
      } else {
        assert t0 + [] == t0;
      }
      ScheduleDownlinkPilots(frame);
      ScheduleDownlinkData(frame);
      AppendAssoc(t0, broadcast, precode);
      AppendAssoc(t0, broadcast + precode, encode);
    }

    /**
     * A downlink frame was requested: it joined the back of the deferral
     * queue when earlier frames are waiting or it is too far ahead of
     * processing, and otherwise its processing started.
     */
    twostate predicate AdmitsDownlink(frame: nat)
      reads this
    {
      && cfg.Valid()
      && cfg.clientDlPilotSymbols <= old(|encodeCurFrameForSymbol|)
      && dlAdmitted == old(dlAdmitted) + [frame]
      && (if Defers(old(encodeDeferral), old(curProcFrame), cfg.scheduleQueues, frame) then
            && encodeDeferral == old(encodeDeferral) + [frame]
            && taskQueue == old(taskQueue)
            && encodeCurFrameForSymbol == old(encodeCurFrameForSymbol)
            && dlScheduled == old(dlScheduled)
          else
            && encodeDeferral == old(encodeDeferral) == []
            && taskQueue == old(taskQueue) + DownlinkTasks(cfg, frame, old(beamLastFrame) == frame as int)
            && encodeCurFrameForSymbol
               == PilotRecords(old(encodeCurFrameForSymbol), cfg.clientDlPilotSymbols, frame, old(beamLastFrame) == frame as int)
            && dlScheduled == old(dlScheduled) + [frame])
    }

    /** No downlink frame was requested. */
    twostate predicate KeepsDownlink()
      reads this
    {
      && dlAdmitted == old(dlAdmitted)
      && encodeDeferral == old(encodeDeferral)
      && taskQueue == old(taskQueue)
      && encodeCurFrameForSymbol == old(encodeCurFrameForSymbol)
      && dlScheduled == old(dlScheduled)
    }

    /**
     * A downlink frame is requested: its processing starts now unless
     * earlier frames are waiting or it is too far ahead of processing, in
     * which case it joins the back of the deferral queue.
     */
    method ScheduleOrDeferDownlink(frame: nat)
      requires DownlinkInv() && DeferralFifo()
      modifies this`taskQueue, this`encodeCurFrameForSymbol, this`encodeDeferral, this`dlAdmitted, this`dlScheduled
      ensures DownlinkInv() && DeferralFifo()
      ensures AdmitsDownlink(frame)
    {
      if |encodeDeferral| > 0 || frame >= curProcFrame + cfg.scheduleQueues {
        encodeDeferral := encodeDeferral + [frame];
        dlAdmitted := dlAdmitted + [frame];
      } else {
        dlAdmitted := dlAdmitted + [frame];
        dlScheduled := dlScheduled + [frame];
        ScheduleDownlinkProcessing(frame);
      }
    }

    /** Starts the downlink of the front deferred frame and removes it from the queue. */
    method StartDeferredFront()
      requires DownlinkInv() && DeferralFifo() && |encodeDeferral| > 0
      modifies this`taskQueue, this`encodeCurFrameForSymbol, this`encodeDeferral, this`dlScheduled
      ensures DownlinkInv() && DeferralFifo()
      ensures var d := old(encodeDeferral)[0];
        && encodeDeferral == old(encodeDeferral)[1..]
        && dlScheduled == old(dlScheduled) + [d]
        && taskQueue == old(taskQueue) + DownlinkTasks(cfg, d, beamLastFrame == d as int)
        && encodeCurFrameForSymbol == PilotRecords(old(encodeCurFrameForSymbol), cfg.clientDlPilotSymbols, d, beamLastFrame == d as int)
    {
      var deferred := encodeDeferral[0];
      ScheduleDownlinkProcessing(deferred);
      AppendAssoc(dlScheduled, [deferred], encodeDeferral[1..]);
      assert encodeDeferral == [encodeDeferral[0]] + encodeDeferral[1..];
      encodeDeferral := encodeDeferral[1..];
      dlScheduled := dlScheduled + [deferred];
    }

    /**
     * Starts deferred downlink frames, front first: at most `scheduleQueues`
     * of them, stopping at the first one that is still too far ahead; a
     * front already behind processing is the runtime-assertion failure.
     */
    method DrainDeferral() returns (fatal: bool)
      requires DownlinkInv() && DeferralFifo()
      modifies this`taskQueue, this`encodeCurFrameForSymbol, this`encodeDeferral, this`dlScheduled
      ensures DownlinkInv() && DeferralFifo()
      ensures var k := DrainCount(old(encodeDeferral), curProcFrame, cfg.scheduleQueues, cfg.scheduleQueues);
        && (fatal <==> DrainAborts(old(encodeDeferral), curProcFrame, cfg.scheduleQueues, cfg.scheduleQueues))
        && encodeDeferral == old(encodeDeferral)[k..]
        && dlScheduled == old(dlScheduled) + old(encodeDeferral)[..k]
        && taskQueue == old(taskQueue) + DownlinkTasksFor(cfg, old(encodeDeferral)[..k], beamLastFrame)
        && encodeCurFrameForSymbol
           == PilotRecordsFor(old(encodeCurFrameForSymbol), cfg.clientDlPilotSymbols, old(encodeDeferral)[..k], beamLastFrame)
    {
      fatal := false;
      var proc := curProcFrame;
      var queues := cfg.scheduleQueues;
      ghost var d0 := encodeDeferral;
      ghost var e0 := encodeCurFrameForSymbol;
      ghost var pilots := cfg.clientDlPilotSymbols;
      var encode := 0;
      assert d0[..0] == [];
      assert d0[0..] == d0;
      assert taskQueue + [] == taskQueue;
      assert dlScheduled + [] == dlScheduled;
      while encode < queues && |encodeDeferral| > 0
        invariant 0 <= encode <= queues && encode <= |d0|
        invariant encodeDeferral == d0[encode..]
        invariant dlScheduled == old(dlScheduled) + d0[..encode]
        invariant taskQueue == old(taskQueue) + DownlinkTasksFor(cfg, d0[..encode], beamLastFrame)
        invariant encodeCurFrameForSymbol == PilotRecordsFor(e0, pilots, d0[..encode], beamLastFrame)
        invariant forall i :: 0 <= i < encode ==> proc <= d0[i] < proc + queues
        invariant DownlinkInv() && DeferralFifo()
      {
        var deferred := encodeDeferral[0];
        if deferred < proc + queues {
          if deferred < proc {
            DrainCountIs(d0, proc, queues, queues, encode);
            fatal := true;
            return;
          }
          assert d0[encode..][1..] == d0[encode + 1..];
          assert d0[encode..][0] == d0[encode];
          assert d0[0..encode] + [d0[encode]] == d0[0..encode + 1];
          DownlinkTasksForStep(cfg, d0, encode, beamLastFrame);
          PilotRecordsForStep(e0, pilots, d0, encode, beamLastFrame);
          AppendAssoc(old(taskQueue), DownlinkTasksFor(cfg, d0[..encode], beamLastFrame), DownlinkTasks(cfg, deferred, beamLastFrame == deferred as int));
          AppendAssoc(old(dlScheduled), d0[..encode], [deferred]);
          StartDeferredFront();
        } else {
          break;
        }
        encode := encode + 1;
      }
      DrainCountIs(d0, proc, queues, queues, encode);
    }

    /** Clears a finished frame's counters and moves the processing frontier past it. */
    method CloseFrame(frame: nat)
      requires cfg.Valid()
      modifies this`demulCounters, this`decodeCounters, this`tomacCounters, this`ifftCounters, this`txCounters
      modifies this`curProcFrame
      ensures curProcFrame == old(curProcFrame) + 1
      ensures demulCounters == (if cfg.uplinkHardDemod then old(demulCounters).Reset(cfg.frameWnd, frame) else old(demulCounters))
      ensures decodeCounters == old(decodeCounters).Reset(cfg.frameWnd, frame)
      ensures tomacCounters == old(tomacCounters).Reset(cfg.frameWnd, frame)
      ensures ifftCounters == old(ifftCounters).Reset(cfg.frameWnd, frame)
      ensures txCounters == old(txCounters).Reset(cfg.frameWnd, frame)
    {
      if cfg.uplinkHardDemod {
        demulCounters := demulCounters.Reset(cfg.frameWnd, frame);
      }
      decodeCounters := decodeCounters.Reset(cfg.frameWnd, frame);
      tomacCounters := tomacCounters.Reset(cfg.frameWnd, frame);
      ifftCounters := ifftCounters.Reset(cfg.frameWnd, frame);
      txCounters := txCounters.Reset(cfg.frameWnd, frame);
      curProcFrame := curProcFrame + 1;
    }

    /**
     * When the frame is done in both directions: clears its counters, moves
     * the processing frontier, and either reports the last frame to test as
     * finished or drains the deferral queue.
     */
    method CheckFrameComplete(frame: nat) returns (finished: bool, fatal: bool)
      requires DownlinkInv() && DeferralFifo()
      modifies this`demulCounters, this`decodeCounters, this`tomacCounters, this`ifftCounters, this`txCounters
      modifies this`curProcFrame, this`taskQueue, this`encodeCurFrameForSymbol, this`encodeDeferral, this`dlScheduled
      ensures DownlinkInv() && DeferralFifo()
      ensures !(finished && fatal)
      ensures !old(FrameDone(frame)) ==>
        && !finished && !fatal
        && curProcFrame == old(curProcFrame)
        && demulCounters == old(demulCounters) && decodeCounters == old(decodeCounters)
        && tomacCounters == old(tomacCounters) && ifftCounters == old(ifftCounters) && txCounters == old(txCounters)
        && taskQueue == old(taskQueue) && encodeDeferral == old(encodeDeferral)
        && encodeCurFrameForSymbol == old(encodeCurFrameForSymbol) && dlScheduled == old(dlScheduled)
      ensures old(FrameDone(frame)) ==>
        && curProcFrame == old(curProcFrame) + 1
        && demulCounters == (if cfg.uplinkHardDemod then old(demulCounters).Reset(cfg.frameWnd, frame) else old(demulCounters))
        && decodeCounters == old(decodeCounters).Reset(cfg.frameWnd, frame)
        && tomacCounters == old(tomacCounters).Reset(cfg.frameWnd, frame)
        && ifftCounters == old(ifftCounters).Reset(cfg.frameWnd, frame)
        && txCounters == old(txCounters).Reset(cfg.frameWnd, frame)
        && (finished <==> frame + 1 == cfg.framesToTest)
      ensures old(FrameDone(frame)) && finished ==>
        && taskQueue == old(taskQueue) && encodeDeferral == old(encodeDeferral)
        && encodeCurFrameForSymbol == old(encodeCurFrameForSymbol) && dlScheduled == old(dlScheduled)
      ensures old(FrameDone(frame)) && !finished ==>
        var k := DrainCount(old(encodeDeferral), curProcFrame, cfg.scheduleQueues, cfg.scheduleQueues);
        && (fatal <==> DrainAborts(old(encodeDeferral), curProcFrame, cfg.scheduleQueues, cfg.scheduleQueues))
        && encodeDeferral == old(encodeDeferral)[k..]
        && dlScheduled == old(dlScheduled) + old(encodeDeferral)[..k]
        && taskQueue == old(taskQueue) + DownlinkTasksFor(cfg, old(encodeDeferral)[..k], beamLastFrame)
        && encodeCurFrameForSymbol
           == PilotRecordsFor(old(encodeCurFrameForSymbol), cfg.clientDlPilotSymbols, old(encodeDeferral)[..k], beamLastFrame)
    {
      finished, fatal := false, false;
      if FrameDone(frame) {
        CloseFrame(frame);
        if frame + 1 == cfg.framesToTest {
          finished := true;
        } else {
          fatal := DrainDeferral();
        }
      }
    }

    /**
     * A beamforming task of the frame is done. After the frame's last one
     * its weights are ready: the frame is recorded as the latest with
     * weights, its counter slot is cleared, demodulation starts for every
     * UL symbol whose FFT finished for this frame and precoding for every
     * DL symbol encoded for this frame or a later one.
     */
    method HandleBeamTag(frame: nat)
      requires cfg.Valid() && TasksGated() && BeamRecorded() && FftRecorded() && EncodeRecords()
      requires |fftCurFrameForSymbol| == |ulSymbols|
      modifies this`beamCounters, this`beamLastFrame, this`beamDone, this`taskQueue
      ensures TasksGated() && BeamRecorded() && old(beamDone) <= beamDone
      ensures var (c, last) := old(beamCounters).CompleteFrameTask(cfg.frameWnd, frame);
        && beamCounters == (if last then c.Reset(cfg.frameWnd, frame) else c)
        && beamLastFrame == (if last then frame as int else old(beamLastFrame))
        && taskQueue == old(taskQueue)
           + (if last then
                SubcarrierTasksFor(cfg, Demul, frame, ReleasedSymbols(fftCurFrameForSymbol, ulSymbols, frame, false))
                + SubcarrierTasksFor(cfg, Precode, frame, ReleasedSymbols(encodeCurFrameForSymbol, dlSymbols, frame, true))
              else [])
    {
      var r := beamCounters.CompleteFrameTask(cfg.frameWnd, frame);
      var last := r.1;
      beamCounters := r.0;
      if last {
        AllGatedGrow(taskQueue, beamDone, fftDone, beamDone + {frame}, fftDone);
        beamLastFrame := frame;
        beamDone := beamDone + {frame};
        beamCounters := beamCounters.Reset(cfg.frameWnd, frame);
        ghost var t0 := taskQueue;
        ScheduleReleased(Demul, frame, fftCurFrameForSymbol, ulSymbols, false);
        ScheduleReleased(Precode, frame, encodeCurFrameForSymbol, dlSymbols, true);
        AppendAssoc(t0, SubcarrierTasksFor(cfg, Demul, frame, ReleasedSymbols(fftCurFrameForSymbol, ulSymbols, frame, false)),
          SubcarrierTasksFor(cfg, Precode, frame, ReleasedSymbols(encodeCurFrameForSymbol, dlSymbols, frame, true)));
      } else {
        assert taskQueue + [] == taskQueue;
      }
    }

    /**
     * Takes one batch of `fftBlockSize` packets from the front of a slot's
     * FFT queue, counting each as an issued FFT request.
     */
    method TakeFftBatch(slot: nat) returns (tags: seq<Tag>)
      requires cfg.Valid() && slot < |fftQueues| && |fftQueues[slot]| >= cfg.fftBlockSize
      modifies this`fftQueues, this`fftCreatedCount, this`scheduleFlags, this`curScheFrame
      ensures tags == old(fftQueues[slot])[..cfg.fftBlockSize]
      ensures fftQueues == old(fftQueues)[slot := old(fftQueues[slot])[cfg.fftBlockSize..]]
      ensures FftState(fftCreatedCount, scheduleFlags, curScheFrame)
              == FftIssueSteps(cfg, FftState(old(fftCreatedCount), old(scheduleFlags), old(curScheFrame)), cfg.fftBlockSize)
    {
      ghost var f1 := fftQueues;
      ghost var q1 := fftQueues[slot];
      ghost var s1 := FftState(fftCreatedCount, scheduleFlags, curScheFrame);
      tags := [];
      assert q1[..0] == [] && q1[0..] == q1;
      for j := 0 to cfg.fftBlockSize
        invariant fftQueues == f1[slot := q1[j..]]
        invariant tags == q1[..j]
        invariant FftState(fftCreatedCount, scheduleFlags, curScheFrame) == FftIssueSteps(cfg, s1, j)
      {
        assert q1[j..][1..] == q1[j + 1..];
        assert q1[j..][0] == q1[j];
        assert q1[0..j] + [q1[j]] == q1[0..j + 1];
        assert f1[slot := q1[j..]][slot := q1[j + 1..]] == f1[slot := q1[j + 1..]];
        tags := tags + [fftQueues[slot][0]];
        fftQueues := fftQueues[slot := fftQueues[slot][1..]];
        fftCreatedCount := fftCreatedCount + 1;
        if fftCreatedCount == cfg.RxPktsPerFrame() {
          fftCreatedCount := 0;
          if cfg.bigstationMode {
            CheckIncrementScheduleFrame(curScheFrame, FlagUplinkComplete);
          }
        }
      }
    }

    /** Issues every full FFT batch of a slot's queue as one task each, front first. */
    method IssueFftBatches(slot: nat, qid: nat)
      requires cfg.Valid() && TasksGated() && slot < |fftQueues|
      modifies this`fftQueues, this`taskQueue, this`fftCreatedCount, this`scheduleFlags, this`curScheFrame
      ensures TasksGated() && |fftQueues| == old(|fftQueues|)
      ensures var q := old(fftQueues[slot]);
              var issued := WholeBatches(|q|, cfg.fftBlockSize);
        && issued <= |q|
        && fftQueues == old(fftQueues)[slot := q[issued..]]
        && taskQueue == old(taskQueue) + AsTasks(FFT, qid, FftEvents(q, cfg.fftBlockSize))
        && FftState(fftCreatedCount, scheduleFlags, curScheFrame)
           == FftIssueSteps(cfg, FftState(old(fftCreatedCount), old(scheduleFlags), old(curScheFrame)), issued)
    {
      var b := cfg.fftBlockSize;
      ghost var q0 := fftQueues[slot];
      ghost var f0 := fftQueues;
      ghost var s0 := FftState(fftCreatedCount, scheduleFlags, curScheFrame);
      ghost var es := FftEvents(q0, b);
      assert q0[0..] == q0;
      var numBlocks := |fftQueues[slot]| / b;
      ghost var pos := 0;
      for i := 0 to numBlocks
        invariant pos == i * b && pos <= |q0|
        invariant fftQueues == f0[slot := q0[pos..]]
        invariant taskQueue == old(taskQueue) + AsTasks(FFT, qid, es[..i])
        invariant FftState(fftCreatedCount, scheduleFlags, curScheFrame) == FftIssueSteps(cfg, s0, pos)
        invariant TasksGated()
      {
        BatchInRange(i, |q0|, b);
        assert es[i].tags == q0[pos .. pos + b];
        assert q0[pos..][..b] == q0[pos .. pos + b];
        assert q0[pos..][b..] == q0[pos + b..];
        assert f0[slot := q0[pos..]][slot := q0[pos + b..]] == f0[slot := q0[pos + b..]];
        FftIssueStepsCompose(cfg, s0, pos, b);
        var tags := TakeFftBatch(slot);
        AsTasksStep(FFT, qid, es, i);
        taskQueue := taskQueue + [Task(FFT, qid, Event(FFT, tags))];
        MulDistrib(i, 1, b);
        pos := pos + b;
      }
      assert es[..numBlocks] == es;
    }

    /**
     * Groups the packets queued for the frame being scheduled into FFT
     * tasks of `fftBlockSize` packets each, in arrival order; counts the
     * requests, and in Bigstation mode reports the frame's uplink as
     * complete once a frame's worth of requests has been issued.  The queue
     * slot and the task queue id are those of the frame being scheduled on
     * entry, even when the frontier moves during the batching.
     */
    method TryScheduleFft()
      requires Valid()
      modifies this`fftQueues, this`taskQueue, this`fftCreatedCount, this`scheduleFlags, this`curScheFrame
      ensures Valid()
      ensures var slot := old(curScheFrame) % cfg.frameWnd;
              var q := old(fftQueues)[slot];
              var issued := WholeBatches(|q|, cfg.fftBlockSize);
        && issued <= |q|
        && fftQueues == old(fftQueues)[slot := q[issued..]]
        && taskQueue == old(taskQueue) + AsTasks(FFT, QueueId(old(curScheFrame)), FftEvents(q, cfg.fftBlockSize))
        && FftState(fftCreatedCount, scheduleFlags, curScheFrame)
           == FftIssueSteps(cfg, FftState(old(fftCreatedCount), old(scheduleFlags), old(curScheFrame)), issued)
    {
      var slot := curScheFrame % cfg.frameWnd;
      var qid := QueueId(curScheFrame);
      if |fftQueues[slot]| >= cfg.fftBlockSize {
        IssueFftBatches(slot, qid);
      } else {
        ghost var q := fftQueues[slot];
        assert |q| / cfg.fftBlockSize == 0;
        assert q[0..] == q;
        assert FftEvents(q, cfg.fftBlockSize) == [];
        assert taskQueue + [] == taskQueue;
      }
    }

    /** TryScheduleFft, keeping the coordinator invariant. */
    method ScheduleFft()
      requires Valid()
      modifies this
      ensures Valid() && Grows()
    {
      ghost var s := FftState(fftCreatedCount, scheduleFlags, curScheFrame);
      ghost var q := fftQueues[curScheFrame % cfg.frameWnd];
      TryScheduleFft();
      FftIssueStepsAdvance(cfg, s, WholeBatches(|q|, cfg.fftBlockSize));
    }

    // -------------------------------------------------------------------
    // Completion of one tag, stage by stage
    // -------------------------------------------------------------------

    /**
     * An FFT task of a pilot symbol is done. After the symbol's last antenna
     * (and, with reciprocity calibration, only once the frame's calibration
     * is done) the symbol counts as done; after the frame's last pilot symbol
     * the counter slot is cleared and beamforming of the frame starts.
     */
    method FftPilot(frame: nat, symbol: nat)
      requires cfg.Valid() && TasksGated()
      modifies this`pilotFftCounters, this`taskQueue
      ensures TasksGated()
      ensures var (c, lastTask) := old(pilotFftCounters).CompleteTask(cfg.frameWnd, frame, symbol);
              var ready := lastTask && (!cfg.recCalEnabled || rcLastFrame == frame as int);
              var (d, lastSymbol) := c.CompleteSymbol(cfg.frameWnd, frame);
        && pilotFftCounters == (if !ready then c else if lastSymbol then d.Reset(cfg.frameWnd, frame) else d)
        && taskQueue == old(taskQueue) + (if ready && lastSymbol then SubcarrierTasks(cfg, Beam, frame, 0) else [])
    {
      var r := pilotFftCounters.CompleteTask(cfg.frameWnd, frame, symbol);
      pilotFftCounters := r.0;
      if r.1 && (!cfg.recCalEnabled || rcLastFrame == frame as int) {
        var q := pilotFftCounters.CompleteSymbol(cfg.frameWnd, frame);
        pilotFftCounters := q.0;
        if q.1 {
          pilotFftCounters := pilotFftCounters.Reset(cfg.frameWnd, frame);
          ScheduleSubcarriers(Beam, frame, 0);
          return;
        }
      }
      assert taskQueue + [] == taskQueue;
    }

    /**
     * An FFT task of an uplink symbol is done. After the symbol's last
     * antenna the frame is recorded as the symbol's latest FFT, demodulation
     * starts if the frame's beamforming weights are the latest ones, and the
     * symbol counts as done; after the frame's last UL symbol the slot is cleared.
     */
    method FftUplink(frame: nat, symbol: nat)
      requires cfg.Valid() && ulSymbols == cfg.ULSymbols() && symbol in ulSymbols
      requires TasksGated() && FftRecorded() && BeamRecorded() && |fftCurFrameForSymbol| == |ulSymbols|
      modifies this`uplinkFftCounters, this`fftCurFrameForSymbol, this`fftDone, this`taskQueue
      ensures TasksGated() && FftRecorded() && |fftCurFrameForSymbol| == |ulSymbols| && old(fftDone) <= fftDone
      ensures var idx := cfg.GetULSymbolIdx(symbol).value;
              var (c, lastTask) := old(uplinkFftCounters).CompleteTask(cfg.frameWnd, frame, symbol);
              var (d, lastSymbol) := c.CompleteSymbol(cfg.frameWnd, frame);
        && uplinkFftCounters == (if !lastTask then c else if lastSymbol then d.Reset(cfg.frameWnd, frame) else d)
        && fftCurFrameForSymbol == (if lastTask then old(fftCurFrameForSymbol)[idx := frame as int] else old(fftCurFrameForSymbol))
        && taskQueue == old(taskQueue)
           + (if lastTask && beamLastFrame == frame as int then SubcarrierTasks(cfg, Demul, frame, symbol) else [])
    {
      var idx := cfg.GetULSymbolIdx(symbol).value;
      var r := uplinkFftCounters.CompleteTask(cfg.frameWnd, frame, symbol);
      uplinkFftCounters := r.0;
      if r.1 {
        StageRecordsGrow(fftCurFrameForSymbol, ulSymbols, fftDone, fftDone + {(frame, symbol)});
        AllGatedGrow(taskQueue, beamDone, fftDone, beamDone, fftDone + {(frame, symbol)});
        fftDone := fftDone + {(frame, symbol)};
        fftCurFrameForSymbol := fftCurFrameForSymbol[idx := frame];
        if beamLastFrame == frame as int {
          ScheduleSubcarriers(Demul, frame, symbol);
        } else {
          assert taskQueue + [] == taskQueue;
        }
        var q := uplinkFftCounters.CompleteSymbol(cfg.frameWnd, frame);
        uplinkFftCounters := q.0;
        if q.1 {
          uplinkFftCounters := uplinkFftCounters.Reset(cfg.frameWnd, frame);
        }
      } else {
        assert taskQueue + [] == taskQueue;
      }
    }

    /**
     * An FFT task of a calibration symbol is done; after the frame's last
     * one its slot is cleared and the frame is recorded as the latest
     * calibrated frame.
     */
    method FftCalibration(frame: nat)
      requires cfg.Valid()
      modifies this`rcCounters, this`rcLastFrame
      ensures var (c, last) := old(rcCounters).CompleteFrameTask(cfg.frameWnd, frame);
        && rcCounters == (if last then c.Reset(cfg.frameWnd, frame) else c)
        && rcLastFrame == (if last then frame as int else old(rcLastFrame))
    {
      var r := rcCounters.CompleteFrameTask(cfg.frameWnd, frame);
      rcCounters := r.0;
      if r.1 {
        rcCounters := rcCounters.Reset(cfg.frameWnd, frame);
        rcLastFrame := frame;
      }
    }

    /** An FFT task is done: dispatches on the type of its symbol; other types are ignored. */
    method HandleEventFft(g: Tag)
      requires cfg.Valid() && ulSymbols == cfg.ULSymbols()
      requires TasksGated() && FftRecorded() && BeamRecorded() && IsRecord(rcLastFrame)
      requires |fftCurFrameForSymbol| == |ulSymbols|
      modifies this`pilotFftCounters, this`uplinkFftCounters, this`rcCounters, this`rcLastFrame
      modifies this`fftCurFrameForSymbol, this`fftDone, this`taskQueue
      ensures TasksGated() && FftRecorded() && IsRecord(rcLastFrame)
      ensures |fftCurFrameForSymbol| == |ulSymbols| && old(fftDone) <= fftDone && old(taskQueue) <= taskQueue
      ensures var t := cfg.GetSymbolType(g.symbol);
        && (t != Pilot ==> pilotFftCounters == old(pilotFftCounters))
        && (t != UL ==> uplinkFftCounters == old(uplinkFftCounters) && fftCurFrameForSymbol == old(fftCurFrameForSymbol))
        && (t != CalDL && t != CalUL ==> rcCounters == old(rcCounters) && rcLastFrame == old(rcLastFrame))
        && (t != Pilot && t != UL ==> taskQueue == old(taskQueue))
    {
      var t := cfg.GetSymbolType(g.symbol);
      if t == Pilot {
        FftPilot(g.frame, g.symbol);
      } else if t == UL {
        PositionsSpec(cfg.symbolTypes, UL);
        FftUplink(g.frame, g.symbol);
      } else if t == CalDL || t == CalUL {
        FftCalibration(g.frame);
      }
    }

    /**
     * A demodulation task is done. After the symbol's last one decoding of
     * the symbol starts (without hard demodulation) and the symbol counts as
     * done. After the frame's last symbol: with hard demodulation the uplink
     * is reported complete and the frame's completion is to be checked;
     * otherwise the slot is cleared, and the uplink is reported complete, or
     * in Bigstation mode the symbol's decoding is scheduled once more.
     */
    method DemulTag(frame: nat, symbol: nat) returns (checkFrame: bool)
      requires cfg.Valid() && TasksGated()
      modifies this`demulCounters, this`taskQueue, this`scheduleFlags, this`curScheFrame
      ensures TasksGated()
      ensures var (c, lastTask) := old(demulCounters).CompleteTask(cfg.frameWnd, frame, symbol);
              var (d, lastSymbol) := c.CompleteSymbol(cfg.frameWnd, frame);
              var decode := CodeblockTasks(cfg, Decode, Uplink, frame, symbol);
              var report := lastTask && lastSymbol && (cfg.uplinkHardDemod || !cfg.bigstationMode);
        && checkFrame == (lastTask && lastSymbol && cfg.uplinkHardDemod)
        && demulCounters
           == (if !lastTask then c else if lastSymbol && !cfg.uplinkHardDemod then d.Reset(cfg.frameWnd, frame) else d)
        && taskQueue == old(taskQueue)
           + (if lastTask && !cfg.uplinkHardDemod then decode + (if lastSymbol && cfg.bigstationMode then decode else []) else [])
        && (scheduleFlags, curScheFrame)
           == (if report then NextSchedule(old(scheduleFlags), old(curScheFrame), FlagUplinkComplete, cfg.NumULSyms(), cfg.NumDLSyms())
               else (old(scheduleFlags), old(curScheFrame)))
    {
      checkFrame := false;
      var r := demulCounters.CompleteTask(cfg.frameWnd, frame, symbol);
      demulCounters := r.0;
      if !r.1 {
        assert taskQueue + [] == taskQueue;
        return;
      }
      ghost var t0 := taskQueue;
      ghost var decode := CodeblockTasks(cfg, Decode, Uplink, frame, symbol);
      if !cfg.uplinkHardDemod {
        ScheduleCodeblocks(Decode, Uplink, frame, symbol);
      } else {
        assert taskQueue + [] == taskQueue;
      }
      var q := demulCounters.CompleteSymbol(cfg.frameWnd, frame);
      demulCounters := q.0;
      if q.1 {
        if cfg.uplinkHardDemod {
          CheckIncrementScheduleFrame(frame, FlagUplinkComplete);
          checkFrame := true;
        } else {
          demulCounters := demulCounters.Reset(cfg.frameWnd, frame);
          if !cfg.bigstationMode {
            CheckIncrementScheduleFrame(frame, FlagUplinkComplete);
            assert decode + [] == decode;
          } else {
            ScheduleCodeblocks(Decode, Uplink, frame, symbol);
            AppendAssoc(t0, decode, decode);
          }
        }
      } else if !cfg.uplinkHardDemod {
        assert decode + [] == decode;
      }
    }

    /**
     * A decoding task is done. After the symbol's last codeblock its users'
     * data goes to the MAC (when the MAC is enabled) and the symbol counts as
     * done; without the MAC the frame's last symbol triggers the completion check.
     */
    method DecodeTag(frame: nat, symbol: nat) returns (checkFrame: bool)
      requires cfg.Valid()
      modifies this`decodeCounters, this`macQueue
      ensures var (c, lastTask) := old(decodeCounters).CompleteTask(cfg.frameWnd, frame, symbol);
              var (d, lastSymbol) := c.CompleteSymbol(cfg.frameWnd, frame);
        && decodeCounters == (if lastTask then d else c)
        && macQueue == old(macQueue)
           + (if lastTask && cfg.enableMac then UserEvents(PacketToMac, frame, symbol, cfg.spatialStreamsNum) else [])
        && checkFrame == (lastTask && lastSymbol && !cfg.enableMac)
    {
      checkFrame := false;
      var r := decodeCounters.CompleteTask(cfg.frameWnd, frame, symbol);
      decodeCounters := r.0;
      if r.1 {
        if cfg.enableMac {
          ScheduleUsers(frame, symbol);
        }
        var q := decodeCounters.CompleteSymbol(cfg.frameWnd, frame);
        decodeCounters := q.0;
        checkFrame := q.1 && !cfg.enableMac;
      }
    }

    /** A user's decoded data reached the MAC; the frame's last symbol triggers the completion check. */
    method ToMacTag(frame: nat, symbol: nat) returns (checkFrame: bool)
      requires cfg.Valid()
      modifies this`tomacCounters
      ensures var (c, lastTask) := old(tomacCounters).CompleteTask(cfg.frameWnd, frame, symbol);
              var (d, lastSymbol) := c.CompleteSymbol(cfg.frameWnd, frame);
        && tomacCounters == (if lastTask then d else c)
        && checkFrame == (lastTask && lastSymbol)
    {
      checkFrame := false;
      var r := tomacCounters.CompleteTask(cfg.frameWnd, frame, symbol);
      tomacCounters := r.0;
      if r.1 {
        var q := tomacCounters.CompleteSymbol(cfg.frameWnd, frame);
        tomacCounters := q.0;
        checkFrame := q.1;
      }
    }

    /**
     * A user's downlink data for the frame arrived from the MAC; after the
     * frame's last user the frame's downlink is requested and the slot is cleared.
     */
    method FromMacTag(frame: nat)
      requires DownlinkInv() && DeferralFifo()
      modifies this`macToPhyCounters
      modifies this`taskQueue, this`encodeCurFrameForSymbol, this`encodeDeferral, this`dlAdmitted, this`dlScheduled
      ensures DownlinkInv() && DeferralFifo()
      ensures var (c, last) := old(macToPhyCounters).CompleteTask(cfg.frameWnd, frame, 0);
        && macToPhyCounters == (if last then c.Reset(cfg.frameWnd, frame) else c)
        && (if last then AdmitsDownlink(frame) else KeepsDownlink())
    {
      var r := macToPhyCounters.CompleteTask(cfg.frameWnd, frame, 0);
      macToPhyCounters := r.0;
      if r.1 {
        ScheduleOrDeferDownlink(frame);
        macToPhyCounters := macToPhyCounters.Reset(cfg.frameWnd, frame);
      }
    }

    /**
     * An encoding task is done. After the symbol's last codeblock the frame
     * is recorded as the symbol's latest encoding, precoding starts if the
     * frame's beamforming weights are the latest ones, and the symbol counts
     * as done; after the frame's last data symbol the slot is cleared. A
     * symbol that is not a DL symbol has no record: the out-of-range access
     * is fatal.
     */
    method EncodeTag(frame: nat, symbol: nat) returns (fatal: bool)
      requires cfg.Valid() && dlSymbols == cfg.DLSymbols() && TasksGated() && EncodeRecords() && BeamRecorded()
      modifies this`encodeCounters, this`encodeCurFrameForSymbol, this`taskQueue
      ensures TasksGated() && EncodeRecords()
      ensures var (c, lastTask) := old(encodeCounters).CompleteTask(cfg.frameWnd, frame, symbol);
              var (d, lastSymbol) := c.CompleteSymbol(cfg.frameWnd, frame);
              var idx := cfg.GetDLSymbolIdx(symbol);
        && fatal == (lastTask && idx.None?)
        && (!lastTask || idx.None? ==>
              encodeCounters == c && encodeCurFrameForSymbol == old(encodeCurFrameForSymbol) && taskQueue == old(taskQueue))
        && (lastTask && idx.Some? ==>
              && encodeCounters == (if lastSymbol then d.Reset(cfg.frameWnd, frame) else d)
              && encodeCurFrameForSymbol == old(encodeCurFrameForSymbol)[idx.value := frame as int]
              && taskQueue == old(taskQueue)
                 + (if beamLastFrame == frame as int then SubcarrierTasks(cfg, Precode, frame, symbol) else []))
    {
      fatal := false;
      var r := encodeCounters.CompleteTask(cfg.frameWnd, frame, symbol);
      encodeCounters := r.0;
      if !r.1 {
        return;
      }
      var idx := cfg.GetDLSymbolIdx(symbol);
      if idx.None? {
        fatal := true;
        return;
      }
      encodeCurFrameForSymbol := encodeCurFrameForSymbol[idx.value := frame];
      if beamLastFrame == frame as int {
        ScheduleSubcarriers(Precode, frame, symbol);
      } else {
        assert taskQueue + [] == taskQueue;
      }
      var q := encodeCounters.CompleteSymbol(cfg.frameWnd, frame);
      encodeCounters := q.0;
      if q.1 {
        encodeCounters := encodeCounters.Reset(cfg.frameWnd, frame);
      }
    }

    /**
     * A precoding task is done; after the symbol's last one the IFFT of the
     * symbol starts and the symbol counts as done; after the frame's last
     * symbol the slot is cleared.
     */
    method PrecodeTag(frame: nat, symbol: nat)
      requires cfg.Valid() && TasksGated()
      modifies this`precodeCounters, this`taskQueue
      ensures TasksGated()
      ensures var (c, lastTask) := old(precodeCounters).CompleteTask(cfg.frameWnd, frame, symbol);
              var (d, lastSymbol) := c.CompleteSymbol(cfg.frameWnd, frame);
        && precodeCounters == (if !lastTask then c else if lastSymbol then d.Reset(cfg.frameWnd, frame) else d)
        && taskQueue == old(taskQueue)
           + (if lastTask then AsTasks(IFFT, QueueId(frame), BlockEvents(IFFT, frame, symbol, cfg.bsAntNum, cfg.fftBlockSize)) else [])
    {
      var r := precodeCounters.CompleteTask(cfg.frameWnd, frame, symbol);
      precodeCounters := r.0;
      if !r.1 {
        assert taskQueue + [] == taskQueue;
        return;
      }
      ScheduleAntennas(IFFT, frame, symbol);
      var q := precodeCounters.CompleteSymbol(cfg.frameWnd, frame);
      precodeCounters := q.0;
      if q.1 {
        precodeCounters := precodeCounters.Reset(cfg.frameWnd, frame);
      }
    }

    /**
     * The IFFT scan: starting at the next symbol to transmit, releases the
     * TX of each DL symbol, in order, while the index is at most `bound` and
     * the symbol's latest IFFT is this frame's. Indexing past the table is fatal.
     */
    method ReleaseTx(frame: nat, bound: nat) returns (fatal: bool)
      requires cfg.Valid() && TxLogGated() && IfftRecorded()
      requires |ifftCurFrameForSymbol| == |dlSymbols| && ifftNextSymbol <= |dlSymbols|
      modifies this`txQueue, this`ifftNextSymbol
      ensures TxLogGated() && ifftNextSymbol <= |dlSymbols| && old(txQueue) <= txQueue
      ensures var r := ReleaseCount(ifftCurFrameForSymbol, old(ifftNextSymbol), frame, bound);
        && fatal == r.None?
        && (r.Some? ==>
              && ifftNextSymbol == old(ifftNextSymbol) + r.value
              && txQueue == old(txQueue) + TxBurst(frame, dlSymbols[old(ifftNextSymbol)..ifftNextSymbol], cfg.bsAntNum))
    {
      fatal := false;
      ghost var cur := ifftCurFrameForSymbol;
      ghost var start := ifftNextSymbol;
      var sym := ifftNextSymbol;
      assert dlSymbols[start..sym] == [];
      assert txQueue + [] == txQueue;
      while sym <= bound
        invariant start <= sym <= |cur| && ifftNextSymbol == sym
        invariant TxLogGated()
        invariant txQueue == old(txQueue) + TxBurst(frame, dlSymbols[start..sym], cfg.bsAntNum)
        invariant ReleaseCount(cur, start, frame, bound) == Shift(ReleaseCount(cur, sym, frame, bound), sym - start)
        decreases bound + 1 - sym
      {
        if sym == |ifftCurFrameForSymbol| {
          fatal := true;
          return;
        }
        if ifftCurFrameForSymbol[sym] != frame as int {
          break;
        }
        TxBurstExtend(old(txQueue), frame, dlSymbols, start, sym, cfg.bsAntNum);
        ReleaseCountStep(cur, start, sym, frame, bound);
        ScheduleAntennasTX(frame, dlSymbols[sym]);
        ifftNextSymbol := ifftNextSymbol + 1;
        sym := sym + 1;
      }
    }

    /**
     * An IFFT task is done. After the symbol's last antenna the frame is
     * recorded as the symbol's latest IFFT; if the symbol is the next one to
     * transmit, the scan releases every contiguous ready symbol from it. The
     * symbol then counts as done; after the frame's last symbol the next
     * symbol to transmit goes back to the first, the downlink is reported
     * complete and the frame's completion is to be checked.
     */
    method IfftTag(frame: nat, symbol: nat) returns (checkFrame: bool, fatal: bool)
      requires cfg.Valid() && dlSymbols == cfg.DLSymbols() && TxLogGated() && IfftRecorded()
      requires |ifftCurFrameForSymbol| == |dlSymbols| && ifftNextSymbol <= |dlSymbols|
      modifies this`ifftCounters, this`ifftCurFrameForSymbol, this`ifftDone, this`ifftNextSymbol, this`txQueue
      modifies this`scheduleFlags, this`curScheFrame
      ensures TxLogGated() && IfftRecorded() && old(ifftDone) <= ifftDone
      ensures |ifftCurFrameForSymbol| == |dlSymbols| && ifftNextSymbol <= |dlSymbols|
      ensures fatal ==> curScheFrame == old(curScheFrame)
      ensures old(txQueue) <= txQueue && old(curScheFrame) <= curScheFrame
      ensures var r := IfftStep(cfg, old(IfftView(ifftCounters, ifftCurFrameForSymbol, ifftNextSymbol, txQueue, scheduleFlags, curScheFrame)), frame, symbol);
        && (fatal <==> r.IfftFatal?)
        && (r.IfftDone? ==>
              && r.view == IfftView(ifftCounters, ifftCurFrameForSymbol, ifftNextSymbol, txQueue, scheduleFlags, curScheFrame)
              && checkFrame == r.checkFrame)
    {
      checkFrame, fatal := false, false;
      IfftStepProgress(cfg, IfftView(ifftCounters, ifftCurFrameForSymbol, ifftNextSymbol, txQueue, scheduleFlags, curScheFrame), frame, symbol);
      var r := ifftCounters.CompleteTask(cfg.frameWnd, frame, symbol);
      ifftCounters := r.0;
      if !r.1 {
        assert txQueue + [] == txQueue;
        return;
      }
      var idx := cfg.GetDLSymbolIdx(symbol);
      if idx.None? {
        fatal := true;
        return;
      }
      checkFrame, fatal := IfftSymbol(frame, idx.value);
    }

    /** Records the frame as DL symbol `i`'s latest finished IFFT. */
    method RecordIfft(frame: nat, i: nat)
      requires dlSymbols == cfg.DLSymbols() && TxLogGated() && IfftRecorded()
      requires |ifftCurFrameForSymbol| == |dlSymbols| && i < |dlSymbols|
      modifies this`ifftCurFrameForSymbol, this`ifftDone
      ensures TxLogGated() && IfftRecorded() && old(ifftDone) <= ifftDone
      ensures ifftCurFrameForSymbol == old(ifftCurFrameForSymbol)[i := frame as int]
    {
      AllTxGatedGrow(txQueue, dlSymbols, ifftDone, ifftDone + {(frame, dlSymbols[i])});
      StageRecordsGrow(ifftCurFrameForSymbol, dlSymbols, ifftDone, ifftDone + {(frame, dlSymbols[i])});
      ifftDone := ifftDone + {(frame, dlSymbols[i])};
      ifftCurFrameForSymbol := ifftCurFrameForSymbol[i := frame];
    }

    /** The part of an IFFT completion after DL symbol `i` of the frame has all its antennas. */
    method IfftSymbol(frame: nat, i: nat) returns (checkFrame: bool, fatal: bool)
      requires cfg.Valid() && dlSymbols == cfg.DLSymbols() && TxLogGated() && IfftRecorded()
      requires |ifftCurFrameForSymbol| == |dlSymbols| && ifftNextSymbol <= |dlSymbols|
      requires i < |dlSymbols|
      modifies this`ifftCounters, this`ifftCurFrameForSymbol, this`ifftDone, this`ifftNextSymbol, this`txQueue
      modifies this`scheduleFlags, this`curScheFrame
      ensures TxLogGated() && IfftRecorded() && old(ifftDone) <= ifftDone
      ensures |ifftCurFrameForSymbol| == |dlSymbols| && ifftNextSymbol <= |dlSymbols|
      ensures fatal ==> curScheFrame == old(curScheFrame) && old(txQueue) <= txQueue
      ensures var r := IfftSymbolDone(cfg, old(IfftView(ifftCounters, ifftCurFrameForSymbol, ifftNextSymbol, txQueue, scheduleFlags, curScheFrame)), frame, i);
        && (fatal <==> r.IfftFatal?)
        && (r.IfftDone? ==>
              && r.view == IfftView(ifftCounters, ifftCurFrameForSymbol, ifftNextSymbol, txQueue, scheduleFlags, curScheFrame)
              && checkFrame == r.checkFrame)
    {
      checkFrame := false;
      fatal := IfftRelease(frame, i);
      if fatal {
        return;
      }
      checkFrame := CountIfftSymbol(frame);
    }

    /**
     * DL symbol `i` of the frame is recorded; when it is the next symbol to
     * transmit, the TX scan releases the contiguous ready symbols from it.
     */
    method IfftRelease(frame: nat, i: nat) returns (fatal: bool)
      requires cfg.Valid() && dlSymbols == cfg.DLSymbols() && TxLogGated() && IfftRecorded()
      requires |ifftCurFrameForSymbol| == |dlSymbols| && ifftNextSymbol <= |dlSymbols|
      requires i < |dlSymbols|
      modifies this`ifftCurFrameForSymbol, this`ifftDone, this`ifftNextSymbol, this`txQueue
      ensures TxLogGated() && IfftRecorded() && old(ifftDone) <= ifftDone
      ensures ifftNextSymbol <= |dlSymbols| && old(txQueue) <= txQueue
      ensures ifftCurFrameForSymbol == old(ifftCurFrameForSymbol)[i := frame as int]
      ensures var next := old(ifftNextSymbol);
        var released := if i == next then ReleaseCount(ifftCurFrameForSymbol, i, frame, ifftCounters.GetSymbolCount(cfg.frameWnd, frame)) else Some(0);
        && (fatal <==> released.None?)
        && (released.Some? ==>
              && ifftNextSymbol == (if i == next then i + released.value else next)
              && txQueue == old(txQueue) + TxBurst(frame, dlSymbols[i..i + released.value], cfg.bsAntNum))
    {
      fatal := false;
      RecordIfft(frame, i);
      if i == ifftNextSymbol {
        fatal := ReleaseTx(frame, ifftCounters.GetSymbolCount(cfg.frameWnd, frame));
      } else {
        assert dlSymbols[i..i] == [];
        assert txQueue + [] == txQueue;
      }
    }

    /**
     * DL symbol of the frame is done with its IFFT; after the frame's last
     * one the next symbol to transmit goes back to the first and the
     * downlink is reported complete.
     */
    method CountIfftSymbol(frame: nat) returns (last: bool)
      requires cfg.Valid()
      modifies this`ifftCounters, this`ifftNextSymbol, this`scheduleFlags, this`curScheFrame
      ensures (ifftCounters, last) == old(ifftCounters).CompleteSymbol(cfg.frameWnd, frame)
      ensures ifftNextSymbol == (if last then 0 else old(ifftNextSymbol))
      ensures (scheduleFlags, curScheFrame)
              == (if last then NextSchedule(old(scheduleFlags), old(curScheFrame), FlagDownlinkComplete, cfg.NumULSyms(), cfg.NumDLSyms())
                  else (old(scheduleFlags), old(curScheFrame)))
    {
      var q := ifftCounters.CompleteSymbol(cfg.frameWnd, frame);
      ifftCounters := q.0;
      last := q.1;
      if last {
        ifftNextSymbol := 0;
        CheckIncrementScheduleFrame(frame, FlagDownlinkComplete);
      }
    }

    /** The frame's control symbols are generated: TX of every DL control symbol, in order. */
    method BroadcastTag(frame: nat)
      requires cfg.Valid() && dlSymbols == cfg.DLSymbols() && TxLogGated()
      modifies this`txQueue
      ensures TxLogGated()
      ensures txQueue == old(txQueue) + TxBurst(frame, cfg.DLControlSymbols(), cfg.bsAntNum)
    {
      var control := cfg.DLControlSymbols();
      PositionsSpec(cfg.symbolTypes, Control);
      PositionsSpec(cfg.symbolTypes, DL);
      assert control[..0] == [];
      assert txQueue + [] == txQueue;
      for idx := 0 to cfg.NumDlControlSyms()
        invariant TxLogGated()
        invariant txQueue == old(txQueue) + TxBurst(frame, control[..idx], cfg.bsAntNum)
      {
        var symbol := control[idx];
        assert symbol !in dlSymbols;
        TxBurstStep(frame, control, idx, cfg.bsAntNum);
        AppendAssoc(old(txQueue), TxBurst(frame, control[..idx], cfg.bsAntNum), AntennaTxEvents(frame, symbol, cfg.bsAntNum));
        ScheduleAntennasTX(frame, symbol);
      }
      assert control[..cfg.NumDlControlSyms()] == control;
    }

    /** A TX request was sent; the frame's last symbol triggers the completion check. */
    method PacketTxTag(frame: nat, symbol: nat) returns (checkFrame: bool)
      requires cfg.Valid()
      modifies this`txCounters
      ensures var (c, lastTask) := old(txCounters).CompleteTask(cfg.frameWnd, frame, symbol);
              var (d, lastSymbol) := c.CompleteSymbol(cfg.frameWnd, frame);
        && txCounters == (if lastTask then d else c)
        && checkFrame == (lastTask && lastSymbol)
    {
      checkFrame := false;
      var r := txCounters.CompleteTask(cfg.frameWnd, frame, symbol);
      txCounters := r.0;
      if r.1 {
        var q := txCounters.CompleteSymbol(cfg.frameWnd, frame);
        txCounters := q.0;
        checkFrame := q.1;
      }
    }

    /**
     * A received packet of (frame, symbol) has been counted: the pilot or
     * calibration count and the frame's packet count of its slot went up by
     * one, each wrapping to 0 after a frame's worth, and the first packet of
     * a frame requested the frame's downlink (when the MAC does not).
     */
    twostate predicate CountsPacket(frame: nat, symbol: nat)
      reads this
    {
      && cfg.Valid()
      && old(|numPilotPkts|) == cfg.frameWnd && old(|numReciprocityPkts|) == cfg.frameWnd && old(|numPkts|) == cfg.frameWnd
      && var slot := frame % cfg.frameWnd;
      && numPilotPkts
         == (if cfg.IsPilot(symbol) then old(numPilotPkts)[slot := CountPacket(old(numPilotPkts)[slot], cfg.PilotPktsPerFrame())]
             else old(numPilotPkts))
      && numReciprocityPkts
         == (if !cfg.IsPilot(symbol) && (cfg.IsCalDlPilot(symbol) || cfg.IsCalUlPilot(symbol))
             then old(numReciprocityPkts)[slot := CountPacket(old(numReciprocityPkts)[slot], cfg.ReciprocityPktsPerFrame())]
             else old(numReciprocityPkts))
      && numPkts == old(numPkts)[slot := CountPacket(old(numPkts)[slot], cfg.RxPktsPerFrame())]
      && (if old(numPkts)[slot] == 0 && !cfg.enableMac then AdmitsDownlink(frame) else KeepsDownlink())
    }

    /** The pilot and calibration part of CountsPacket. */
    method CountPilotPacket(frame: nat, symbol: nat)
      requires cfg.Valid() && |numPilotPkts| == cfg.frameWnd && |numReciprocityPkts| == cfg.frameWnd
      modifies this`numPilotPkts, this`numReciprocityPkts
      ensures var slot := frame % cfg.frameWnd;
        && numPilotPkts
           == (if cfg.IsPilot(symbol) then old(numPilotPkts)[slot := CountPacket(old(numPilotPkts)[slot], cfg.PilotPktsPerFrame())]
               else old(numPilotPkts))
        && numReciprocityPkts
           == (if !cfg.IsPilot(symbol) && (cfg.IsCalDlPilot(symbol) || cfg.IsCalUlPilot(symbol))
               then old(numReciprocityPkts)[slot := CountPacket(old(numReciprocityPkts)[slot], cfg.ReciprocityPktsPerFrame())]
               else old(numReciprocityPkts))
    {
      var slot := frame % cfg.frameWnd;
      if cfg.IsPilot(symbol) {
        numPilotPkts := numPilotPkts[slot := CountPacket(numPilotPkts[slot], cfg.PilotPktsPerFrame())];
      } else if cfg.IsCalDlPilot(symbol) || cfg.IsCalUlPilot(symbol) {
        numReciprocityPkts := numReciprocityPkts[slot := CountPacket(numReciprocityPkts[slot], cfg.ReciprocityPktsPerFrame())];
      }
    }

    /** Counts a received packet (see CountsPacket). */
    method UpdateRxCounters(frame: nat, symbol: nat)
      requires DownlinkInv() && DeferralFifo()
      requires |numPilotPkts| == cfg.frameWnd && |numReciprocityPkts| == cfg.frameWnd && |numPkts| == cfg.frameWnd
      modifies this`numPilotPkts, this`numReciprocityPkts, this`numPkts
      modifies this`taskQueue, this`encodeCurFrameForSymbol, this`encodeDeferral, this`dlAdmitted, this`dlScheduled
      ensures DownlinkInv() && DeferralFifo()
      ensures CountsPacket(frame, symbol)
    {
      var slot := frame % cfg.frameWnd;
      CountPilotPacket(frame, symbol);
      if numPkts[slot] == 0 && !cfg.enableMac {
        ScheduleOrDeferDownlink(frame);
      }
      numPkts := numPkts[slot := CountPacket(numPkts[slot], cfg.RxPktsPerFrame())];
    }

    /**
     * A packet arrived from the radio. A packet a whole frame window or more
     * ahead of the frame being scheduled stops the coordinator and is
     * neither counted nor queued; any other is counted and joins the FFT
     * queue of its frame's slot.
     */
    method ReceivePacket(g: Tag)
      requires DownlinkInv() && DeferralFifo()
      requires |numPilotPkts| == cfg.frameWnd && |numReciprocityPkts| == cfg.frameWnd && |numPkts| == cfg.frameWnd
      requires |fftQueues| == cfg.frameWnd
      modifies this`running, this`fftQueues, this`numPilotPkts, this`numReciprocityPkts, this`numPkts
      modifies this`taskQueue, this`encodeCurFrameForSymbol, this`encodeDeferral, this`dlAdmitted, this`dlScheduled
      ensures DownlinkInv() && DeferralFifo() && |fftQueues| == cfg.frameWnd
      ensures |numPilotPkts| == cfg.frameWnd && |numReciprocityPkts| == cfg.frameWnd && |numPkts| == cfg.frameWnd
      ensures g.frame >= curScheFrame + cfg.frameWnd ==>
        && !running && fftQueues == old(fftQueues) && KeepsDownlink()
        && numPilotPkts == old(numPilotPkts) && numReciprocityPkts == old(numReciprocityPkts) && numPkts == old(numPkts)
      ensures g.frame < curScheFrame + cfg.frameWnd ==>
        && running == old(running) && CountsPacket(g.frame, g.symbol)
        && fftQueues == old(fftQueues)[g.frame % cfg.frameWnd := old(fftQueues)[g.frame % cfg.frameWnd] + [g]]
    {
      if g.frame >= curScheFrame + cfg.frameWnd {
        running := false;
        return;
      }
      UpdateRxCounters(g.frame, g.symbol);
      var slot := g.frame % cfg.frameWnd;
      fftQueues := fftQueues[slot := fftQueues[slot] + [g]];
    }

    // -------------------------------------------------------------------
    // Events
    // -------------------------------------------------------------------

    /**
     * CheckFrameComplete, reduced to its outcome and what the coordinator
     * invariant needs: nothing happens before the frame is done; a done frame
     * moves the frontier by one and is the last one exactly when it is the
     * last frame to test.
     */
    method CheckFrameProgress(frame: nat) returns (finished: bool, fatal: bool)
      requires DownlinkInv() && DeferralFifo()
      modifies this`demulCounters, this`decodeCounters, this`tomacCounters, this`ifftCounters, this`txCounters
      modifies this`curProcFrame, this`taskQueue, this`encodeCurFrameForSymbol, this`encodeDeferral, this`dlScheduled
      ensures DownlinkInv() && DeferralFifo()
      ensures old(curProcFrame) <= curProcFrame && old(taskQueue) <= taskQueue && old(dlScheduled) <= dlScheduled
      ensures !(finished && fatal)
      ensures !old(FrameDone(frame)) ==> !finished && !fatal && curProcFrame == old(curProcFrame) && taskQueue == old(taskQueue)
      ensures old(FrameDone(frame)) ==> curProcFrame == old(curProcFrame) + 1 && (finished <==> frame + 1 == cfg.framesToTest)
    {
      finished, fatal := CheckFrameComplete(frame);
    }

    /** The completion check of CheckFrameComplete, keeping the coordinator invariant. */
    method FinishFrame(frame: nat) returns (finished: bool, fatal: bool)
      requires Valid()
      modifies this
      ensures Valid() && Grows()
    {
      finished, fatal := CheckFrameProgress(frame);
    }

    method OnPacketRx(g: Tag)
      requires Valid()
      modifies this
      ensures Valid() && Grows()
    {
      ReceivePacket(g);
    }

    method OnFftTag(g: Tag)
      requires Valid()
      modifies this
      ensures Valid() && Grows()
    {
      HandleEventFft(g);
    }

    method OnFft(tags: seq<Tag>)
      requires Valid()
      modifies this
      ensures Valid() && Grows()
    {
      for i := 0 to |tags|
        invariant Valid() && Grows()
      {
        OnFftTag(tags[i]);
      }
    }

    method OnBeamTag(frame: nat)
      requires Valid()
      modifies this
      ensures Valid() && Grows()
    {
      HandleBeamTag(frame);
    }

    method OnBeam(tags: seq<Tag>)
      requires Valid()
      modifies this
      ensures Valid() && Grows()
    {
      for i := 0 to |tags|
        invariant Valid() && Grows()
      {
        OnBeamTag(tags[i].frame);
      }
    }

    method OnDemul(g: Tag) returns (finish: bool, fatal: bool)
      requires Valid()
      modifies this
      ensures Valid() && Grows()
    {
      finish, fatal := false, false;
      var check := DemulTag(g.frame, g.symbol);
      if check {
        finish, fatal := FinishFrame(g.frame);
      }
    }

    method OnDecode(g: Tag) returns (finish: bool, fatal: bool)
      requires Valid()
      modifies this
      ensures Valid() && Grows()
    {
      finish, fatal := false, false;
      var check := DecodeTag(g.frame, g.symbol);
      if check {
        finish, fatal := FinishFrame(g.frame);
      }
    }

    method OnToMac(g: Tag) returns (finish: bool, fatal: bool)
      requires Valid()
      modifies this
      ensures Valid() && Grows()
    {
      finish, fatal := false, false;
      var check := ToMacTag(g.frame, g.symbol);
      if check {
        finish, fatal := FinishFrame(g.frame);
      }
    }

    method OnFromMac(frame: nat)
      requires Valid()
      modifies this
      ensures Valid() && Grows()
    {
      FromMacStep(frame);
    }

    /**
     * FromMacTag, keeping the downlink part of the invariant: the frame's
     * MAC-to-PHY count advances, and its last task admits the frame to the
     * downlink and clears the count; only queues and logs grow.
     */
    method FromMacStep(frame: nat)
      requires DownlinkInv() && DeferralFifo()
      modifies this`macToPhyCounters
      modifies this`taskQueue, this`encodeCurFrameForSymbol, this`encodeDeferral, this`dlAdmitted, this`dlScheduled
      ensures DownlinkInv() && DeferralFifo()
      ensures old(taskQueue) <= taskQueue && old(dlAdmitted) <= dlAdmitted && old(dlScheduled) <= dlScheduled
      ensures var (c, last) := old(macToPhyCounters).CompleteTask(cfg.frameWnd, frame, 0);
        && macToPhyCounters == (if last then c.Reset(cfg.frameWnd, frame) else c)
        && dlAdmitted == (if last then old(dlAdmitted) + [frame] else old(dlAdmitted))
    {
      FromMacTag(frame);
    }

    method OnEncodeTag(g: Tag) returns (fatal: bool)
      requires Valid()
      modifies this
      ensures Valid() && Grows()
    {
      fatal := EncodeTag(g.frame, g.symbol);
    }

    method OnEncode(tags: seq<Tag>) returns (fatal: bool)
      requires Valid()
      modifies this
      ensures Valid() && Grows()
    {
      fatal := false;
      for i := 0 to |tags|
        invariant Valid() && Grows()
      {
        fatal := OnEncodeTag(tags[i]);
        if fatal {
          return;
        }
      }
    }

    method OnPrecode(g: Tag)
      requires Valid()
      modifies this
      ensures Valid() && Grows()
    {
      PrecodeTag(g.frame, g.symbol);
    }

    /** IfftTag, keeping the coordinator invariant. */
    method IfftTagValid(g: Tag) returns (checkFrame: bool, fatal: bool)
      requires Valid()
      modifies this
      ensures Valid() && Grows()
    {
      checkFrame, fatal := IfftTag(g.frame, g.symbol);
    }

    method OnIfftTag(g: Tag) returns (finish: bool, fatal: bool)
      requires Valid()
      modifies this
      ensures Valid() && Grows()
    {
      finish := false;
      var check;
      check, fatal := IfftTagValid(g);
      if check && !fatal {
        finish, fatal := FinishFrame(g.frame);
      }
    }

    method OnIfft(tags: seq<Tag>) returns (finish: bool, fatal: bool)
      requires Valid()
      modifies this
      ensures Valid() && Grows()
    {
      finish, fatal := false, false;
      for i := 0 to |tags|
        invariant Valid() && Grows()
      {
        finish, fatal := OnIfftTag(tags[i]);
        if finish || fatal {
          return;
        }
      }
    }

    method OnBroadcast(frame: nat)
      requires Valid()
      modifies this
      ensures Valid() && Grows()
    {
      BroadcastTag(frame);
    }

    method OnPacketTx(g: Tag) returns (finish: bool, fatal: bool)
      requires Valid()
      modifies this
      ensures Valid() && Grows()
    {
      finish, fatal := false, false;
      var check := PacketTxTag(g.frame, g.symbol);
      if check {
        finish, fatal := FinishFrame(g.frame);
      }
    }

    /**
     * Handles one event from the radio threads, the workers or the MAC
     * thread, then groups newly queued packets into FFT tasks unless the
     * test run finished. Event kinds the coordinator does not expect are
     * fatal; a RAN update only changes the uplink modulation, which is not
     * part of this model.
     */
    method HandleEvents(e: Event) returns (finish: bool, fatal: bool)
      requires Valid() && |e.tags| > 0
      modifies this
      ensures Valid() && Grows()
      ensures (e.kind == PacketPilotTX || e.kind == SNRReport) ==> fatal && !finish
      ensures e.kind == RANUpdate ==> !fatal && !finish
    {
      finish, fatal := DispatchEvent(e);
      if !finish && !fatal {
        ScheduleFft();
      }
    }

    /** The per-kind handling of HandleEvents. */
    method DispatchEvent(e: Event) returns (finish: bool, fatal: bool)
      requires Valid() && |e.tags| > 0
      modifies this
      ensures Valid() && Grows()
      ensures (e.kind == PacketPilotTX || e.kind == SNRReport) ==> fatal && !finish
      ensures e.kind == RANUpdate ==> !fatal && !finish
    {
      finish, fatal := false, false;
      var g := e.tags[0];
      match e.kind {
        case PacketRX => OnPacketRx(g);
        case FFT => OnFft(e.tags);
        case Beam => OnBeam(e.tags);
        case Demul => finish, fatal := OnDemul(g);
        case Decode => finish, fatal := OnDecode(g);
        case RANUpdate =>
        case PacketToMac => finish, fatal := OnToMac(g);
        case PacketFromMac => OnFromMac(g.frame);
        case Encode => fatal := OnEncode(e.tags);
        case Precode => OnPrecode(g);
        case IFFT => finish, fatal := OnIfft(e.tags);
        case Broadcast => OnBroadcast(g.frame);
        case PacketTX => finish, fatal := OnPacketTx(g);
        case PacketPilotTX => fatal := true;
        case SNRReport => fatal := true;
      }
    }

    /**
     * One fetched batch, handled event by event until the test run finishes
     * or an unexpected event shows up; `count` events were handled.
     */
    method HandleBatch(batch: seq<Event>) returns (count: nat, finish: bool, fatal: bool)
      requires Valid()
      requires forall k :: 0 <= k < |batch| ==> |batch[k].tags| > 0
      modifies this
      ensures Valid() && Grows()
      ensures count <= |batch|
      ensures !finish && !fatal ==> count == |batch|
      ensures finish || fatal ==> count > 0
    {
      count, finish, fatal := 0, false, false;
      while count < |batch|
        invariant Valid() && Grows()
        invariant count <= |batch| && !finish && !fatal
      {
        finish, fatal := HandleEvents(batch[count]);
        count := count + 1;
        if finish || fatal {
          return;
        }
      }
    }

    /**
     * The coordinator's main loop. Batches are fetched alternately from the
     * radio/MAC side (`io`) and from the workers (`work`); every event of a
     * batch is handled, so a stop requested while handling a batch takes
     * effect at the next fetch. The loop ends when the coordinator stopped,
     * the last frame to test finished, an unexpected event arrived, or the
     * side whose turn it is has nothing left (the exit signal). `handled` is
     * the events handled, always a prefix of everything fetchable.
     */
    method Start(io: seq<seq<Event>>, work: seq<seq<Event>>) returns (handled: seq<Event>, finish: bool, fatal: bool)
      requires Valid()
      requires forall b, k :: 0 <= b < |io| && 0 <= k < |io[b]| ==> |io[b][k].tags| > 0
      requires forall b, k :: 0 <= b < |work| && 0 <= k < |work[b]| ==> |work[b][k].tags| > 0
      modifies this
      ensures Valid() && Grows()
      ensures handled <= Flatten(Interleave(io, work))
      ensures !old(running) ==> handled == [] && !finish && !fatal
      ensures running && !finish && !fatal ==> handled == Flatten(Interleave(io, work))
    {
      ghost var all := Interleave(io, work);
      handled, finish, fatal := [], false, false;
      var ioTurn := true;
      var i, j := 0, 0;
      while running && !finish && !fatal
        invariant Valid() && Grows()
        invariant j <= i <= j + 1 && (ioTurn <==> i == j)
        invariant i <= |io| && j <= |work|
        invariant handled <= Flatten(all)
        invariant !finish && !fatal ==> i + j <= |all| && handled == Flatten(all[..i + j])
        invariant !old(running) ==> handled == [] && !finish && !fatal
        decreases |io| + |work| - i - j
      {
        ghost var n := i + j;
        NextFetch(io, work, i, j);
        var batch;
        if ioTurn {
          if i == |io| {
            assert all[..n] == all;
            break;
          }
          batch := io[i];
          i := i + 1;
        } else {
          if j == |work| {
            assert all[..n] == all;
            break;
          }
          batch := work[j];
          j := j + 1;
        }
        ioTurn := !ioTurn;
        var count;
        count, finish, fatal := HandleBatch(batch);
        HandledExtends(all, n, handled, count);
        handled := handled + batch[..count];
      }
    }
  }
}
