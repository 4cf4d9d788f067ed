/**
 * One worker of the coordinator: a fixed priority list of processing stages
 * and a scan that launches the first stage whose task queue has work,
 * alternating between the two queue sets (even and odd frames).
 *
 * Launching a task is foreign code; whether the task queue of a stage in a
 * queue set has work at the time of the scan is an input (`ready`).
 */
module AgoraWorker {
  import opened Wrappers
  import opened Message

  /** The processing objects a worker owns. */
  datatype Doer = DoBeamWeights | DoFFT | DoDecode | DoDemul | DoIFFT | DoPrecode | DoEncode

  /** The task queue each processing object serves. */
  function TaskKind(d: Doer): EventType
  {
    match d
    case DoBeamWeights => Beam
    case DoFFT => FFT
    case DoDecode => Decode
    case DoDemul => Demul
    case DoIFFT => IFFT
    case DoPrecode => Precode
    case DoEncode => Encode
  }

  /** Each processing object sits at the index of the queue it serves. */
  predicate AlignedSeqs(cs: seq<Doer>, es: seq<EventType>)
  {
    && |cs| == |es|
    && forall i :: 0 <= i < |es| ==> TaskKind(cs[i]) == es[i]
  }

  /** Appending aligned lists to aligned lists keeps them aligned. */
  lemma AlignedConcat(cs: seq<Doer>, es: seq<EventType>, cs': seq<Doer>, es': seq<EventType>)
    requires AlignedSeqs(cs, es) && AlignedSeqs(cs', es')
    ensures AlignedSeqs(cs + cs', es + es')
  {
    forall i | 0 <= i < |es + es'|
      ensures TaskKind((cs + cs')[i]) == (es + es')[i]
    {
      if i >= |es| {
        assert (cs + cs')[i] == cs'[i - |cs|];
      }
    }
  }

  /** The three groups of stages are each aligned with their queues. */
  lemma StageGroupsAligned()
    ensures AlignedSeqs([DoBeamWeights, DoFFT], [Beam, FFT])
    ensures AlignedSeqs([DoDecode, DoDemul], [Decode, Demul])
    ensures AlignedSeqs([DoIFFT, DoPrecode, DoEncode], [IFFT, Precode, Encode])
  {
    assert TaskKind([DoDecode, DoDemul][1]) == [Decode, Demul][1];
    assert TaskKind([DoIFFT, DoPrecode, DoEncode][2]) == [IFFT, Precode, Encode][2];
  }

  /** A queue set is tried this many times in a row without success before the parity is re-decided. */
  const EmptyScanLimit: nat := 5

  /**
   * The stage priority order: beamforming, FFT; then decode and demodulation
   * when the frame has uplink symbols; then IFFT, precoding and encoding when
   * it has downlink symbols.
   */
  function StageEvents(numUlSyms: nat, numDlSyms: nat): (es: seq<EventType>)
    ensures |es| == 2 + (if numUlSyms > 0 then 2 else 0) + (if numDlSyms > 0 then 3 else 0)
    ensures es[0] == Beam && es[1] == FFT
    ensures (Decode in es <==> numUlSyms > 0) && (Demul in es <==> numUlSyms > 0)
    ensures (IFFT in es <==> numDlSyms > 0) && (Precode in es <==> numDlSyms > 0) && (Encode in es <==> numDlSyms > 0)
    ensures FFT !in es[2..] && Beam !in es[2..]
  {
    [Beam, FFT]
      + (if numUlSyms > 0 then [Decode, Demul] else [])
      + (if numDlSyms > 0 then [IFFT, Precode, Encode] else [])
  }

  /**
   * The stage a scan launches, trying the stages from index `from` on in
   * order: the first one whose queue in set `qid` has work, if any.
   */
  function FirstReady(events: seq<EventType>, qid: nat, ready: (EventType, nat) -> bool, from: nat): (r: Option<nat>)
    ensures r.Some? ==> from <= r.value < |events| && ready(events[r.value], qid)
    ensures r.Some? ==> forall j :: from <= j < r.value ==> !ready(events[j], qid)
    ensures r.None? ==> forall j :: from <= j < |events| ==> !ready(events[j], qid)
    decreases |events| - from
  {
    if from >= |events| then None
    else if ready(events[from], qid) then Some(from)
    else FirstReady(events, qid, ready, from + 1)
  }

  /** The queue-set state carried between scans. */
  datatype ScanState = ScanState(qid: nat, itrs: nat)

  /** Bitwise exclusive-or with 1 on a natural number. */
  function Xor1(q: nat): (r: nat)
    ensures r % 2 != q % 2 && r / 2 == q / 2
  {
    if q % 2 == 0 then q + 1 else q - 1
  }

  /**
   * The state after one scan, given whether it launched a task and the
   * scheduling and processing frontiers it read: a successful scan keeps the
   * state; the fifth unsuccessful one in a row switches to the other queue
   * set when the frontiers differ and to the scheduled frame's set
   * otherwise, and restarts the count.
   */
  function AfterScan(s: ScanState, launched: bool, sche: nat, proc: nat): (r: ScanState)
    ensures launched ==> r == s
    ensures s.qid < 2 && s.itrs < EmptyScanLimit ==> r.qid < 2 && r.itrs < EmptyScanLimit
    ensures !launched && s.itrs + 1 != EmptyScanLimit ==> r == ScanState(s.qid, s.itrs + 1)
    ensures !launched && s.itrs + 1 == EmptyScanLimit ==>
      r.itrs == 0 && (if sche != proc then r.qid % 2 != s.qid % 2 else r.qid == sche % 2)
  {
    if launched then s
    else if s.itrs + 1 == EmptyScanLimit then
      ScanState(if sche != proc then Xor1(s.qid) else sche % 2, 0)
    else ScanState(s.qid, s.itrs + 1)
  }

  /** `k` unsuccessful scans in a row against the same frontiers. */
  function EmptyScans(s: ScanState, k: nat, sche: nat, proc: nat): ScanState
  {
    if k == 0 then s else AfterScan(EmptyScans(s, k - 1, sche, proc), false, sche, proc)
  }

  /**
   * From a fresh count, a queue set is kept for four unsuccessful scans and
   * the parity is re-decided at the fifth.
   */
  lemma {:induction false} EmptyScansRedecide(s: ScanState, k: nat, sche: nat, proc: nat)
    requires s.itrs == 0 && k <= EmptyScanLimit
    ensures k < EmptyScanLimit ==> EmptyScans(s, k, sche, proc) == ScanState(s.qid, k)
    ensures k == EmptyScanLimit ==>
      EmptyScans(s, k, sche, proc) == ScanState(if sche != proc then Xor1(s.qid) else sche % 2, 0)
  {
    if k > 0 {
      EmptyScansRedecide(s, k - 1, sche, proc);
    }
  }

  /** What one scan reads from shared state: which queues have work, and the two frontiers. */
  datatype Round = Round(ready: (EventType, nat) -> bool, sche: nat, proc: nat)

  /**
   * The scans of a worker over `rounds`, from state `s`: for each one the
   * queue set it tried and the stage it launched.
   */
  function ScanLog(events: seq<EventType>, s: ScanState, rounds: seq<Round>): (log: seq<(nat, Option<nat>)>)
    ensures |log| == |rounds|
    decreases |rounds|
  {
    if |rounds| == 0 then []
    else
      var l := FirstReady(events, s.qid, rounds[0].ready, 0);
      [(s.qid, l)] + ScanLog(events, AfterScan(s, l.Some?, rounds[0].sche, rounds[0].proc), rounds[1..])
  }

  /**
   * Every scan of the log tries queue set 0 or 1, and launches at most one
   * stage, the first ready one in priority order.
   */
  lemma {:induction false} ScanLogSound(events: seq<EventType>, s: ScanState, rounds: seq<Round>)
    requires s.qid < 2 && s.itrs < EmptyScanLimit
    ensures forall k :: 0 <= k < |rounds| ==>
      && ScanLog(events, s, rounds)[k].0 < 2
      && ScanLog(events, s, rounds)[k].1 == FirstReady(events, ScanLog(events, s, rounds)[k].0, rounds[k].ready, 0)
    decreases |rounds|
  {
    if |rounds| > 0 {
      var l := FirstReady(events, s.qid, rounds[0].ready, 0);
      var s' := AfterScan(s, l.Some?, rounds[0].sche, rounds[0].proc);
      ScanLogSound(events, s', rounds[1..]);
      forall k | 1 <= k < |rounds|
        ensures ScanLog(events, s, rounds)[k] == ScanLog(events, s', rounds[1..])[k - 1]
        ensures rounds[k] == rounds[1..][k - 1]
      {
      }
    }
  }

  class Worker {
    var computers: seq<Doer>
    var events: seq<EventType>
    var curQid: nat
    var emptyQueueItrs: nat
    var emptyQueue: bool

    /** Each processing object sits at the index of the queue it serves. */
    predicate Aligned()
      reads this`computers, this`events
    {
      AlignedSeqs(computers, events)
    }

    /** Between scans: one queue set of two, fewer than five misses, the flag re-armed. */
    predicate Valid()
      reads this
    {
      Aligned() && curQid < 2 && emptyQueueItrs < EmptyScanLimit && emptyQueue
    }

    /** A worker with no stages yet, on queue set 0. */
    constructor Init()
      ensures computers == [] && events == []
      ensures curQid == 0 && emptyQueueItrs == 0 && emptyQueue
      ensures Valid()
    {
      computers := [];
      events := [];
      curQid := 0;
      emptyQueueItrs := 0;
      emptyQueue := true;
    }

    /** Builds the stage list, each processing object next to the queue it serves. */
    method AddStages(numUlSyms: nat, numDlSyms: nat)
      requires computers == [] && events == []
      modifies this`computers, this`events
      ensures events == StageEvents(numUlSyms, numDlSyms)
      ensures Aligned()
    {
      StageGroupsAligned();
      computers := computers + [DoBeamWeights];
      computers := computers + [DoFFT];
      events := events + [Beam];
      events := events + [FFT];
      assert computers == [DoBeamWeights, DoFFT] && events == [Beam, FFT];
      if numUlSyms > 0 {
        ghost var (cs, es) := (computers, events);
        computers := computers + [DoDecode];
        computers := computers + [DoDemul];
        events := events + [Decode];
        events := events + [Demul];
        assert computers == cs + [DoDecode, DoDemul] && events == es + [Decode, Demul];
        AlignedConcat(cs, es, [DoDecode, DoDemul], [Decode, Demul]);
      }
      if numDlSyms > 0 {
        ghost var (cs, es) := (computers, events);
        computers := computers + [DoIFFT];
        computers := computers + [DoPrecode];
        computers := computers + [DoEncode];
        events := events + [IFFT];
        events := events + [Precode];
        events := events + [Encode];
        assert computers == cs + [DoIFFT, DoPrecode, DoEncode] && events == es + [IFFT, Precode, Encode];
        AlignedConcat(cs, es, [DoIFFT, DoPrecode, DoEncode], [IFFT, Precode, Encode]);
      }
    }

    /**
     * Single-core set-up: refused (`ok` false, nothing built) unless exactly
     * one worker thread is configured.
     */
    method InitializeWorker(workerThreadNum: nat, numUlSyms: nat, numDlSyms: nat) returns (ok: bool)
      requires computers == [] && events == []
      modifies this`computers, this`events
      ensures ok <==> workerThreadNum == 1
      ensures ok ==> events == StageEvents(numUlSyms, numDlSyms) && Aligned()
      ensures !ok ==> computers == [] && events == []
    {
      if workerThreadNum != 1 {
        return false;
      }
      AddStages(numUlSyms, numDlSyms);
      ok := true;
    }

    /**
     * One scan: tries the stages in priority order on the current queue set
     * and launches the first one with work; then updates the queue-set state
     * (AfterScan) from the frontiers `sche` and `proc` it reads.
     */
    method RunWorker(ready: (EventType, nat) -> bool, sche: nat, proc: nat) returns (launched: Option<nat>)
      requires Valid()
      modifies this`curQid, this`emptyQueueItrs, this`emptyQueue
      ensures Valid()
      ensures launched == FirstReady(events, old(curQid), ready, 0)
      ensures ScanState(curQid, emptyQueueItrs) == AfterScan(old(ScanState(curQid, emptyQueueItrs)), launched.Some?, sche, proc)
    {
      launched := None;
      var i := 0;
      while i < |computers|
        invariant 0 <= i <= |computers| && launched.None? && emptyQueue
        invariant FirstReady(events, curQid, ready, 0) == FirstReady(events, curQid, ready, i)
      {
        if ready(events[i], curQid) {
          launched := Some(i);
          emptyQueue := false;
          break;
        }
        i := i + 1;
      }
      if emptyQueue {
        emptyQueueItrs := emptyQueueItrs + 1;
        if emptyQueueItrs == EmptyScanLimit {
          if sche != proc {
            curQid := Xor1(curQid);
          } else {
            curQid := sche % 2;
          }
          emptyQueueItrs := 0;
        }
      } else {
        emptyQueue := true;
      }
    }
  }

  /**
   * A worker thread: builds its own stage list, starts on queue set 0 and
   * scans once per round while the system runs. The log says, per scan, the
   * queue set tried and the stage launched.
   */
  method WorkerThread(numUlSyms: nat, numDlSyms: nat, rounds: seq<Round>) returns (log: seq<(nat, Option<nat>)>)
    ensures log == ScanLog(StageEvents(numUlSyms, numDlSyms), ScanState(0, 0), rounds)
  {
    var w := new Worker.Init();
    w.AddStages(numUlSyms, numDlSyms);
    ghost var es := w.events;
    log := [];
    for k := 0 to |rounds|
      invariant w.Valid() && w.events == es
      invariant log + ScanLog(es, ScanState(w.curQid, w.emptyQueueItrs), rounds[k..]) == ScanLog(es, ScanState(0, 0), rounds)
    {
      var qid := w.curQid;
      var launched := w.RunWorker(rounds[k].ready, rounds[k].sche, rounds[k].proc);
      assert rounds[k..][1..] == rounds[k + 1..];
      log := log + [(qid, launched)];
    }
  }
}
