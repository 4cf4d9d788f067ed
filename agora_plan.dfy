/**
 * The task events the coordinator's scheduling helpers emit, as functions
 * of their arguments, and the coverage properties of those event lists.
 */
module AgoraPlan {

  import opened Wrappers
  import opened Message
  import opened Configuration

  /** Number of blocks of size `b` needed for `n` units: the ceiling of n / b. */
  function NumBlocks(n: nat, b: nat): (k: nat)
    requires b > 0
    ensures k == 0 <==> n == 0
  {
    n / b + (if n % b > 0 then 1 else 0)
  }

  /** NumBlocks is the ceiling: k blocks hold all n units and k - 1 blocks do not. */
  lemma NumBlocksCeil(n: nat, b: nat)
    requires b > 0
    ensures NumBlocks(n, b) * b >= n
    ensures n > 0 ==> (NumBlocks(n, b) - 1) * b < n
  {
    var k := NumBlocks(n, b);
    assert n == (n / b) * b + n % b;
    if n % b > 0 {
      MulDistrib(n / b, 1, b);
    }
  }

  lemma MulDistrib(i: nat, d: nat, b: nat)
    ensures (i + d) * b == i * b + d * b
  {
  }

  lemma MulAtLeast(d: nat, b: nat)
    requires d >= 1
    ensures d * b >= b
  {
  }

  /** Number of units in block `i`: `b`, except a final partial block of `n % b`. */
  function BlockLength(i: nat, n: nat, b: nat): (len: nat)
    requires b > 0 && i < NumBlocks(n, b)
  {
    if i == NumBlocks(n, b) - 1 && n % b > 0 then n % b else b
  }

  /** Tags for `count` consecutive units starting at `first`. */
  function UnitTags(frame: nat, symbol: nat, first: nat, count: nat): (ts: seq<Tag>)
    ensures |ts| == count
  {
    seq(count, k requires 0 <= k < count => Tag(frame, symbol, first + k))
  }

  /** The events splitting units 0..n-1 of (frame, symbol) into blocks of `b`. */
  function BlockEvents(kind: EventType, frame: nat, symbol: nat, n: nat, b: nat): (es: seq<Event>)
    requires b > 0
  {
    seq(NumBlocks(n, b), i requires 0 <= i < NumBlocks(n, b) =>
      Event(kind, UnitTags(frame, symbol, i * b, BlockLength(i, n, b))))
  }

  /** The tags of a list of events, in order. */
  function AllTags(es: seq<Event>): (ts: seq<Tag>)
  {
    if |es| == 0 then [] else AllTags(es[..|es| - 1]) + es[|es| - 1].tags
  }

  /** Events placed on the task queue of `queue` with parity `qid`. */
  function AsTasks(queue: EventType, qid: nat, es: seq<Event>): (ts: seq<Task>)
    ensures |ts| == |es|
    ensures forall i :: 0 <= i < |ts| ==> ts[i].queue == queue && ts[i].qid == qid
  {
    seq(|es|, i requires 0 <= i < |es| => Task(queue, qid, es[i]))
  }

  /**
   * Block splitting: ceil(n/b) events, all with b tags except a final one
   * with n mod b tags when that is non-zero.
   */
  lemma BlockEventsShape(kind: EventType, frame: nat, symbol: nat, n: nat, b: nat)
    requires b > 0
    ensures |BlockEvents(kind, frame, symbol, n, b)| == NumBlocks(n, b)
    ensures forall i :: 0 <= i < NumBlocks(n, b) - 1 ==> |BlockEvents(kind, frame, symbol, n, b)[i].tags| == b
    ensures n > 0 ==> |BlockEvents(kind, frame, symbol, n, b)[NumBlocks(n, b) - 1].tags| == (if n % b == 0 then b else n % b)
    ensures forall e :: e in BlockEvents(kind, frame, symbol, n, b) ==> e.kind == kind && 0 < |e.tags| <= b
  {
  }

  lemma UnitTagsAppend(frame: nat, symbol: nat, m: nat, l: nat)
    ensures UnitTags(frame, symbol, 0, m) + UnitTags(frame, symbol, m, l) == UnitTags(frame, symbol, 0, m + l)
  {
  }

  lemma AllTagsPrefix(es: seq<Event>, i: nat)
    requires i < |es|
    ensures AllTags(es[..i + 1]) == AllTags(es[..i]) + es[i].tags
  {
    assert es[..i + 1][..i] == es[..i];
  }

  /**
   * Exactly-once coverage: the units of the block events are 0, 1, ..., n-1,
   * each once and in ascending order, all for the given frame and symbol.
   */
  lemma {:induction false} BlockEventsCover(kind: EventType, frame: nat, symbol: nat, n: nat, b: nat)
    requires b > 0
    ensures AllTags(BlockEvents(kind, frame, symbol, n, b)) == UnitTags(frame, symbol, 0, n)
  {
    var es := BlockEvents(kind, frame, symbol, n, b);
    var k := NumBlocks(n, b);
    if k == 0 {
      return;
    }
    LastBlockEnds(n, b);
    var i, start := 0, 0;
    while i < k - 1
      invariant 0 <= i <= k - 1
      invariant start == i * b
      invariant AllTags(es[..i]) == UnitTags(frame, symbol, 0, start)
    {
      AllTagsPrefix(es, i);
      assert es[i].tags == UnitTags(frame, symbol, start, b);
      UnitTagsAppend(frame, symbol, start, b);
      MulDistrib(i, 1, b);
      i, start := i + 1, start + b;
    }
    AllTagsPrefix(es, k - 1);
    assert es[k - 1].tags == UnitTags(frame, symbol, start, BlockLength(k - 1, n, b));
    UnitTagsAppend(frame, symbol, start, BlockLength(k - 1, n, b));
    assert es[..k] == es;
  }

  /** The last block ends exactly at unit n. */
  lemma LastBlockEnds(n: nat, b: nat)
    requires b > 0 && n > 0
    ensures (NumBlocks(n, b) - 1) * b + BlockLength(NumBlocks(n, b) - 1, n, b) == n
  {
    var k := NumBlocks(n, b);
    assert n == (n / b) * b + n % b;
    if n % b > 0 {
      assert k - 1 == n / b;
    } else {
      assert k == n / b;
      MulDistrib(k - 1, 1, b);
    }
  }

  /** The per-subcarrier-block events of a symbol: event i starts at subcarrier i * block. */
  function SubcarrierEvents(kind: EventType, frame: nat, symbol: nat, count: nat, block: nat): (es: seq<Event>)
    ensures |es| == count
  {
    seq(count, i requires 0 <= i < count => Event(kind, [Tag(frame, symbol, i * block)]))
  }

  /**
   * Subcarrier events are one tag each, with block starts 0, block, 2*block, ...
   * strictly ascending (for a non-empty block), so blocks never overlap.
   */
  lemma SubcarrierEventsDistinct(kind: EventType, frame: nat, symbol: nat, count: nat, block: nat, i: nat, j: nat)
    requires block > 0 && i < j < count
    ensures SubcarrierEvents(kind, frame, symbol, count, block)[i].tags[0].unit + block
            <= SubcarrierEvents(kind, frame, symbol, count, block)[j].tags[0].unit
  {
    MulDistrib(i, j - i, block);
    MulAtLeast(j - i, block);
  }

  /** One event per user for the MAC thread. */
  function UserEvents(kind: EventType, frame: nat, symbol: nat, users: nat): (es: seq<Event>)
  {
    BlockEvents(kind, frame, symbol, users, 1)
  }

  /** One TX event per antenna of a symbol. */
  function AntennaTxEvents(frame: nat, symbol: nat, antennas: nat): (es: seq<Event>)
    ensures |es| == antennas
    ensures forall a :: 0 <= a < antennas ==> es[a] == Event(PacketTX, [Tag(frame, symbol, a)])
  {
    seq(antennas, a requires 0 <= a < antennas => Event(PacketTX, [Tag(frame, symbol, a)]))
  }

  /** Per-antenna TX events are the blocks of size one, so they cover every antenna once. */
  lemma AntennaTxEventsCover(frame: nat, symbol: nat, antennas: nat)
    ensures AntennaTxEvents(frame, symbol, antennas) == BlockEvents(PacketTX, frame, symbol, antennas, 1)
    ensures AllTags(AntennaTxEvents(frame, symbol, antennas)) == UnitTags(frame, symbol, 0, antennas)
  {
    var es := AntennaTxEvents(frame, symbol, antennas);
    var bs := BlockEvents(PacketTX, frame, symbol, antennas, 1);
    assert |es| == |bs|;
    forall a | 0 <= a < antennas
      ensures es[a] == bs[a]
    {
      assert BlockLength(a, antennas, 1) == 1;
      assert UnitTags(frame, symbol, a * 1, 1) == [Tag(frame, symbol, a)];
    }
    BlockEventsCover(PacketTX, frame, symbol, antennas, 1);
  }

  /** FFT requests of one frame slot grouped into events of `b` consecutive requests. */
  function FftEvents(q: seq<Tag>, b: nat): (es: seq<Event>)
    requires b > 0
    ensures |es| == |q| / b
  {
    seq(|q| / b, i requires 0 <= i < |q| / b =>
      BatchInRange(i, |q|, b);
      Event(FFT, q[i * b .. (i + 1) * b]))
  }

  lemma BatchInRange(i: nat, n: nat, b: nat)
    requires b > 0 && i < n / b
    ensures i * b <= (i + 1) * b <= n
  {
    MulDistrib(i, 1, b);
    MulDistrib(i + 1, n / b - i - 1, b);
    assert n == (n / b) * b + n % b;
  }

  /** The first `i` FFT batches hold the first `i * b` queued requests. */
  lemma {:induction false} FftEventsPrefix(q: seq<Tag>, b: nat, i: nat)
    requires b > 0 && i <= |q| / b
    ensures i * b <= |q|
    ensures AllTags(FftEvents(q, b)[..i]) == q[..i * b]
  {
    var es := FftEvents(q, b);
    if i == 0 {
      assert es[..0] == [];
      assert q[..0] == [];
    } else {
      FftEventsPrefix(q, b, i - 1);
      BatchInRange(i - 1, |q|, b);
      AllTagsPrefix(es, i - 1);
      MulDistrib(i - 1, 1, b);
      SliceConcat(q, (i - 1) * b, i * b);
    }
  }

  lemma SliceConcat<T>(q: seq<T>, a: nat, b: nat)
    requires a <= b <= |q|
    ensures q[..a] + q[a..b] == q[..b]
  {
  }

  /** The units that fill whole blocks of size `b`: all but fewer than `b` of them. */
  function WholeBatches(n: nat, b: nat): (m: nat)
    requires b > 0
    ensures m <= n && n - m < b
  {
    assert n == (n / b) * b + n % b;
    (n / b) * b
  }

  /**
   * FFT batching issues the queued requests in arrival order, each once, and
   * leaves only the final partial batch (fewer than b requests) queued.
   */
  lemma FftEventsCover(q: seq<Tag>, b: nat)
    requires b > 0
    ensures AllTags(FftEvents(q, b)) == q[..WholeBatches(|q|, b)]
    ensures |q[WholeBatches(|q|, b)..]| < b
  {
    var k := |q| / b;
    var es := FftEvents(q, b);
    FftEventsPrefix(q, b, k);
    assert es[..k] == es;
  }

  // ---------------------------------------------------------------------
  // Scheduling frontier flags
  // ---------------------------------------------------------------------

  const FlagNone: nat := 0
  const FlagUplinkComplete: nat := 1
  const FlagDownlinkComplete: nat := 2
  const FlagProcessingComplete: nat := 3

  /** Flags a new frame starts with: directions with no symbols count as already complete. */
  function SeedFlags(numUlSyms: nat, numDlSyms: nat): (f: nat)
    ensures f <= FlagProcessingComplete
    ensures f == FlagProcessingComplete <==> numUlSyms == 0 && numDlSyms == 0
  {
    FlagNone
      + (if numUlSyms == 0 then FlagUplinkComplete else 0)
      + (if numDlSyms == 0 then FlagDownlinkComplete else 0)
  }

  /**
   * One completion report, added to the 8-bit flag accumulator: the frontier
   * moves to the next frame exactly when the flags reach "processing
   * complete"; the next frame then starts with the seeded flags.
   */
  function NextSchedule(flags: nat, sche: nat, completed: nat, numUlSyms: nat, numDlSyms: nat): (r: (nat, nat))
    ensures r.0 < 256
    ensures r.1 == sche + 1 || r.1 == sche
    ensures r.1 == sche + 1 <==> (flags + completed) % 256 == FlagProcessingComplete
    ensures r.1 == sche + 1 ==> r.0 == SeedFlags(numUlSyms, numDlSyms)
    ensures r.1 == sche ==> r.0 == (flags + completed) % 256
  {
    var f := (flags + completed) % 256;
    if f == FlagProcessingComplete then (SeedFlags(numUlSyms, numDlSyms), sche + 1) else (f, sche)
  }

  /**
   * A frame with both directions present advances the frontier exactly once
   * when its uplink and downlink completions are both reported, in either order.
   */
  lemma BothDirectionsAdvanceOnce(sche: nat, first: nat, numUlSyms: nat, numDlSyms: nat)
    requires numUlSyms > 0 && numDlSyms > 0
    requires first == FlagUplinkComplete || first == FlagDownlinkComplete
    ensures NextSchedule(SeedFlags(numUlSyms, numDlSyms), sche, first, numUlSyms, numDlSyms).1 == sche
    ensures var s1 := NextSchedule(SeedFlags(numUlSyms, numDlSyms), sche, first, numUlSyms, numDlSyms);
            NextSchedule(s1.0, s1.1, FlagProcessingComplete - first, numUlSyms, numDlSyms)
              == (SeedFlags(numUlSyms, numDlSyms), sche + 1)
  {
  }

  /** With no downlink symbols, a single uplink report completes the frame. */
  lemma UplinkOnlyAdvances(sche: nat, numUlSyms: nat)
    requires numUlSyms > 0
    ensures NextSchedule(SeedFlags(numUlSyms, 0), sche, FlagUplinkComplete, numUlSyms, 0) == (SeedFlags(numUlSyms, 0), sche + 1)
  {
  }

  /** With no uplink symbols, a single downlink report completes the frame. */
  lemma DownlinkOnlyAdvances(sche: nat, numDlSyms: nat)
    requires numDlSyms > 0
    ensures NextSchedule(SeedFlags(0, numDlSyms), sche, FlagDownlinkComplete, 0, numDlSyms) == (SeedFlags(0, numDlSyms), sche + 1)
  {
  }

  /** A direction reported twice in one frame pushes the flags past "complete", so the frontier stalls. */
  lemma DuplicateReportStalls(sche: nat, numUlSyms: nat, numDlSyms: nat)
    requires numUlSyms > 0 && numDlSyms > 0
    ensures var s1 := NextSchedule(SeedFlags(numUlSyms, numDlSyms), sche, FlagDownlinkComplete, numUlSyms, numDlSyms);
            var s2 := NextSchedule(s1.0, s1.1, FlagDownlinkComplete, numUlSyms, numDlSyms);
            s2.1 == sche && NextSchedule(s2.0, s2.1, FlagUplinkComplete, numUlSyms, numDlSyms).1 == sche
  {
  }

  // ---------------------------------------------------------------------
  // Deferral drain and TX release
  // ---------------------------------------------------------------------

  /**
   * How many deferred frames one drain pops: front first, at most `limit`,
   * stopping at the first front outside [proc, proc + queues) (a front below
   * proc is the runtime-assertion failure).
   */
  function DrainCount(q: seq<nat>, proc: nat, queues: nat, limit: nat): (k: nat)
    ensures k <= limit && k <= |q|
    ensures forall i :: 0 <= i < k ==> proc <= q[i] < proc + queues
    ensures k < limit && k < |q| ==> !(proc <= q[k] < proc + queues)
    decreases limit
  {
    if limit == 0 || |q| == 0 || !(proc <= q[0] < proc + queues) then 0
    else 1 + DrainCount(q[1..], proc, queues, limit - 1)
  }

  /** The TX events released for a run of DL symbols of one frame, symbol by symbol. */
  function TxBurst(frame: nat, symbols: seq<nat>, antennas: nat): (es: seq<Event>)
    ensures |es| == |symbols| * antennas
  {
    if |symbols| == 0 then []
    else
      var es := TxBurst(frame, symbols[..|symbols| - 1], antennas) + AntennaTxEvents(frame, symbols[|symbols| - 1], antennas);
      MulDistrib(|symbols| - 1, 1, antennas);
      es
  }

  lemma TxBurstStep(frame: nat, symbols: seq<nat>, i: nat, antennas: nat)
    requires i < |symbols|
    ensures TxBurst(frame, symbols[..i + 1], antennas) == TxBurst(frame, symbols[..i], antennas) + AntennaTxEvents(frame, symbols[i], antennas)
  {
    assert symbols[..i + 1][..i] == symbols[..i];
  }

  /** Releasing one more DL symbol appends its antennas' TX events to the burst so far. */
  lemma TxBurstExtend(q: seq<Event>, frame: nat, symbols: seq<nat>, start: nat, sym: nat, antennas: nat)
    requires start <= sym < |symbols|
    ensures q + TxBurst(frame, symbols[start..sym], antennas) + AntennaTxEvents(frame, symbols[sym], antennas)
         == q + TxBurst(frame, symbols[start..sym + 1], antennas)
  {
    var done := symbols[start..];
    TxBurstStep(frame, done, sym - start, antennas);
    assert done[..sym - start] == symbols[start..sym];
    assert done[..sym + 1 - start] == symbols[start..sym + 1];
    AppendAssoc(q, TxBurst(frame, symbols[start..sym], antennas), AntennaTxEvents(frame, symbols[sym], antennas));
  }

  /** A count of released symbols `d` later: None stays None. */
  function Shift(r: Option<nat>, d: nat): (s: Option<nat>)
    ensures s.Some? <==> r.Some?
    ensures r.Some? ==> s.value - d == r.value
  {
    if r.Some? then Some(r.value + d) else None
  }

  /** A ready symbol inside the bound adds one to the symbols released from `start`. */
  lemma ReleaseCountStep(cur: seq<int>, start: nat, sym: nat, frame: nat, bound: nat)
    requires start <= sym < |cur| && sym <= bound && cur[sym] == frame
    requires ReleaseCount(cur, start, frame, bound) == Shift(ReleaseCount(cur, sym, frame, bound), sym - start)
    ensures ReleaseCount(cur, start, frame, bound) == Shift(ReleaseCount(cur, sym + 1, frame, bound), sym + 1 - start)
  {
  }

  /** Every TX event of a burst is for the burst's frame and one of its symbols. */
  lemma {:induction false} TxBurstTags(frame: nat, symbols: seq<nat>, antennas: nat)
    ensures forall e, g :: e in TxBurst(frame, symbols, antennas) && g in e.tags ==> g.frame == frame && g.symbol in symbols
  {
    if |symbols| > 0 {
      var init := symbols[..|symbols| - 1];
      TxBurstTags(frame, init, antennas);
      forall e, g | e in TxBurst(frame, symbols, antennas) && g in e.tags
        ensures g.frame == frame && g.symbol in symbols
      {
        if e in TxBurst(frame, init, antennas) {
          assert g.symbol in init;
        }
      }
    }
  }

  /**
   * The drain pops exactly the leading run of fronts inside the window, up
   * to the limit: a loop that stops after `e` pops for one of the three
   * reasons has popped DrainCount entries.
   */
  lemma {:induction false} DrainCountIs(q: seq<nat>, proc: nat, queues: nat, limit: nat, e: nat)
    requires e <= limit && e <= |q|
    requires forall i :: 0 <= i < e ==> proc <= q[i] < proc + queues
    requires e == limit || e == |q| || !(proc <= q[e] < proc + queues)
    ensures DrainCount(q, proc, queues, limit) == e
    decreases e
  {
    if e > 0 {
      DrainCountIs(q[1..], proc, queues, limit - 1, e - 1);
    }
  }

  /**
   * A downlink frame whose processing cannot start yet: earlier frames are
   * still waiting, or it is `queues` or more frames ahead of processing.
   */
  predicate Defers(deferral: seq<nat>, proc: nat, queues: nat, frame: nat)
  {
    |deferral| > 0 || frame >= proc + queues
  }

  /** The drain stops on a front below the processing frontier: the runtime assertion fails. */
  predicate DrainAborts(q: seq<nat>, proc: nat, queues: nat, limit: nat)
  {
    var k := DrainCount(q, proc, queues, limit);
    k < limit && k < |q| && q[k] < proc
  }

  /**
   * Number of DL symbols whose TX the IFFT scan releases, scanning from
   * `next` while the index is at most `bound` and the symbol's recorded
   * IFFT frame is `frame`; `None` when the scan would index past the table.
   */
  function ReleaseCount(cur: seq<int>, next: nat, frame: nat, bound: nat): (r: Option<nat>)
    requires next <= |cur|
    ensures r.Some? ==> next + r.value <= |cur|
    ensures r.Some? ==> r.value == 0 || next + r.value <= bound + 1
    ensures r.Some? ==> forall j :: next <= j < next + r.value ==> cur[j] == frame
    ensures r.Some? ==> next + r.value > bound || (next + r.value < |cur| && cur[next + r.value] != frame)
    ensures r.None? ==> |cur| <= bound && forall j :: next <= j < |cur| ==> cur[j] == frame
    decreases |cur| - next
  {
    if next > bound then Some(0)
    else if next == |cur| then None
    else if cur[next] != frame then Some(0)
    else
      var rest := ReleaseCount(cur, next + 1, frame, bound);
      if rest.Some? then Some(rest.value + 1) else None
  }

  lemma AppendAssoc<T>(a: seq<T>, b: seq<T>, c: seq<T>)
    ensures a + b + c == a + (b + c)
  {
  }

  lemma AsTasksStep(queue: EventType, qid: nat, es: seq<Event>, i: nat)
    requires i < |es|
    ensures AsTasks(queue, qid, es[..i + 1]) == AsTasks(queue, qid, es[..i]) + [Task(queue, qid, es[i])]
  {
  }

  // ---------------------------------------------------------------------
  // Downlink processing of one frame
  // ---------------------------------------------------------------------

  /** The broadcast task generating a frame's control symbols. */
  function BroadcastTask(frame: nat): Task
  {
    Task(Broadcast, QueueId(frame), Event(Broadcast, [Tag(frame, 0, 0)]))
  }

  /** Per-subcarrier-block tasks of a stage for one symbol. */
  function SubcarrierTasks(c: Config, kind: EventType, frame: nat, symbol: nat): seq<Task>
  {
    if kind == Beam then
      AsTasks(Beam, QueueId(frame), SubcarrierEvents(Beam, frame, 0, c.beamEventsPerSymbol, c.beamBlockSize))
    else
      AsTasks(kind, QueueId(frame), SubcarrierEvents(kind, frame, symbol, c.demulEventsPerSymbol, c.demulBlockSize))
  }

  /** Number of codeblocks in one symbol of a direction, over all spatial streams. */
  function CodeblocksPerSymbol(c: Config, dir: Direction): nat
  {
    c.spatialStreamsNum * (if dir == Downlink then c.dlBlocksInSymbol else c.ulBlocksInSymbol)
  }

  /** Codeblock tasks of a stage for one symbol. */
  function CodeblockTasks(c: Config, kind: EventType, dir: Direction, frame: nat, symbol: nat): seq<Task>
    requires c.encodeBlockSize > 0
  {
    AsTasks(kind, QueueId(frame), BlockEvents(kind, frame, symbol, CodeblocksPerSymbol(c, dir), c.encodeBlockSize))
  }

  /** Per-subcarrier-block tasks of a stage for each of `symbols`, in order. */
  function SubcarrierTasksFor(c: Config, kind: EventType, frame: nat, symbols: seq<nat>): seq<Task>
  {
    if |symbols| == 0 then []
    else SubcarrierTasksFor(c, kind, frame, symbols[..|symbols| - 1]) + SubcarrierTasks(c, kind, frame, symbols[|symbols| - 1])
  }

  /** Encode tasks for each of `symbols`, in order. */
  function EncodeTasksFor(c: Config, frame: nat, symbols: seq<nat>): seq<Task>
    requires c.encodeBlockSize > 0
  {
    if |symbols| == 0 then []
    else EncodeTasksFor(c, frame, symbols[..|symbols| - 1]) + CodeblockTasks(c, Encode, Downlink, frame, symbols[|symbols| - 1])
  }

  /**
   * Everything scheduled when a frame's downlink processing starts: the
   * broadcast task when there are control symbols, precoding of the DL pilot
   * symbols when the frame's beamforming weights are already done, and
   * encoding of every DL data symbol.
   */
  function DownlinkTasks(c: Config, frame: nat, beamReady: bool): seq<Task>
    requires c.Valid()
  {
    var pilots := c.clientDlPilotSymbols;
    (if c.NumDlControlSyms() > 0 then [BroadcastTask(frame)] else [])
    + (if beamReady then SubcarrierTasksFor(c, Precode, frame, c.DLSymbols()[..pilots]) else [])
    + EncodeTasksFor(c, frame, c.DLSymbols()[pilots..])
  }

  /** Downlink tasks of a run of frames started one after another. */
  function DownlinkTasksFor(c: Config, frames: seq<nat>, beamLast: int): seq<Task>
    requires c.Valid()
  {
    if |frames| == 0 then []
    else DownlinkTasksFor(c, frames[..|frames| - 1], beamLast) + DownlinkTasks(c, frames[|frames| - 1], beamLast == frames[|frames| - 1] as int)
  }

  /**
   * The encode record of the DL pilot symbols after starting a frame's
   * downlink processing: when the beamforming weights are not ready the
   * pilots are marked as provided for that frame.
   */
  function PilotRecords(rec: seq<int>, pilots: nat, frame: nat, beamReady: bool): (r: seq<int>)
    requires pilots <= |rec|
    ensures |r| == |rec|
    ensures forall i :: pilots <= i < |rec| ==> r[i] == rec[i]
    ensures forall i :: 0 <= i < pilots ==> r[i] == (if beamReady then rec[i] else frame as int)
  {
    if beamReady then rec else seq(|rec|, i requires 0 <= i < |rec| => if i < pilots then frame as int else rec[i])
  }

  /** Encode records after starting a run of frames. */
  function PilotRecordsFor(rec: seq<int>, pilots: nat, frames: seq<nat>, beamLast: int): (r: seq<int>)
    requires pilots <= |rec|
    ensures |r| == |rec|
  {
    if |frames| == 0 then rec
    else
      var last := frames[|frames| - 1];
      PilotRecords(PilotRecordsFor(rec, pilots, frames[..|frames| - 1], beamLast), pilots, last, beamLast == last as int)
  }

  lemma DownlinkTasksForStep(c: Config, frames: seq<nat>, i: nat, beamLast: int)
    requires c.Valid() && i < |frames|
    ensures DownlinkTasksFor(c, frames[..i + 1], beamLast) == DownlinkTasksFor(c, frames[..i], beamLast) + DownlinkTasks(c, frames[i], beamLast == frames[i] as int)
  {
    assert frames[..i + 1][..i] == frames[..i];
  }

  lemma PilotRecordsForStep(rec: seq<int>, pilots: nat, frames: seq<nat>, i: nat, beamLast: int)
    requires pilots <= |rec| && i < |frames|
    ensures PilotRecordsFor(rec, pilots, frames[..i + 1], beamLast) == PilotRecords(PilotRecordsFor(rec, pilots, frames[..i], beamLast), pilots, frames[i], beamLast == frames[i] as int)
  {
    assert frames[..i + 1][..i] == frames[..i];
  }

  lemma SubcarrierTasksStep(c: Config, kind: EventType, frame: nat, symbols: seq<nat>, i: nat)
    requires i < |symbols|
    ensures SubcarrierTasksFor(c, kind, frame, symbols[..i + 1]) == SubcarrierTasksFor(c, kind, frame, symbols[..i]) + SubcarrierTasks(c, kind, frame, symbols[i])
  {
    assert symbols[..i + 1][..i] == symbols[..i];
  }

  lemma SubcarrierTasksAppend(c: Config, kind: EventType, frame: nat, symbols: seq<nat>, s: nat)
    ensures SubcarrierTasksFor(c, kind, frame, symbols + [s]) == SubcarrierTasksFor(c, kind, frame, symbols) + SubcarrierTasks(c, kind, frame, s)
  {
    assert (symbols + [s])[..|symbols|] == symbols;
  }

  lemma EncodeTasksStep(c: Config, frame: nat, symbols: seq<nat>, i: nat)
    requires c.encodeBlockSize > 0 && i < |symbols|
    ensures EncodeTasksFor(c, frame, symbols[..i + 1]) == EncodeTasksFor(c, frame, symbols[..i]) + CodeblockTasks(c, Encode, Downlink, frame, symbols[i])
  {
    assert symbols[..i + 1][..i] == symbols[..i];
  }

  // ---------------------------------------------------------------------
  // Releases when a frame's beamforming weights are done
  // ---------------------------------------------------------------------

  /**
   * Whether a per-symbol frame record releases the symbol for `frame`:
   * exactly that frame (`atLeast` false), or that frame or a later one,
   * the "no frame" value -1 excepted (`atLeast` true).
   */
  predicate Releases(rec: int, frame: nat, atLeast: bool)
  {
    if atLeast then rec != -1 && rec >= frame else rec == frame
  }

  /** The symbols whose record releases them for `frame`, in table order. */
  function ReleasedSymbols(rec: seq<int>, syms: seq<nat>, frame: nat, atLeast: bool): (r: seq<nat>)
    requires |rec| == |syms|
    ensures |r| <= |syms|
  {
    if |rec| == 0 then []
    else
      var n := |rec| - 1;
      ReleasedSymbols(rec[..n], syms[..n], frame, atLeast) + (if Releases(rec[n], frame, atLeast) then [syms[n]] else [])
  }

  lemma ReleasedSymbolsStep(rec: seq<int>, syms: seq<nat>, frame: nat, atLeast: bool, i: nat)
    requires |rec| == |syms| && i < |rec|
    ensures ReleasedSymbols(rec[..i + 1], syms[..i + 1], frame, atLeast)
            == ReleasedSymbols(rec[..i], syms[..i], frame, atLeast) + (if Releases(rec[i], frame, atLeast) then [syms[i]] else [])
  {
    assert rec[..i + 1][..i] == rec[..i];
    assert syms[..i + 1][..i] == syms[..i];
  }

  /**
   * A symbol is released exactly when some table position holding it has a
   * releasing record.
   */
  lemma {:induction false} ReleasedSymbolsSpec(rec: seq<int>, syms: seq<nat>, frame: nat, atLeast: bool)
    requires |rec| == |syms|
    ensures forall i :: 0 <= i < |rec| && Releases(rec[i], frame, atLeast) ==> syms[i] in ReleasedSymbols(rec, syms, frame, atLeast)
    ensures forall s :: s in ReleasedSymbols(rec, syms, frame, atLeast) ==>
              exists i :: 0 <= i < |rec| && syms[i] == s && Releases(rec[i], frame, atLeast)
  {
    if |rec| > 0 {
      var n := |rec| - 1;
      ReleasedSymbolsSpec(rec[..n], syms[..n], frame, atLeast);
      forall s | s in ReleasedSymbols(rec, syms, frame, atLeast)
        ensures exists i :: 0 <= i < |rec| && syms[i] == s && Releases(rec[i], frame, atLeast)
      {
        if s in ReleasedSymbols(rec[..n], syms[..n], frame, atLeast) {
          var i :| 0 <= i < n && syms[..n][i] == s && Releases(rec[..n][i], frame, atLeast);
          assert syms[i] == s && Releases(rec[i], frame, atLeast);
        } else {
          assert syms[n] == s && Releases(rec[n], frame, atLeast);
        }
      }
      forall i | 0 <= i < |rec| && Releases(rec[i], frame, atLeast)
        ensures syms[i] in ReleasedSymbols(rec, syms, frame, atLeast)
      {
        if i < n {
          assert rec[..n][i] == rec[i] && syms[..n][i] == syms[i];
        }
      }
    }
  }

  // ---------------------------------------------------------------------
  // Receive counters
  // ---------------------------------------------------------------------

  /** One more packet on a per-slot count that wraps to 0 after `perFrame` packets. */
  function CountPacket(n: nat, perFrame: nat): (m: nat)
    ensures m == 0 <==> n + 1 == perFrame
    ensures m != 0 ==> m == n + 1
  {
    if n + 1 == perFrame then 0 else n + 1
  }

  /** `k` packets counted one after another from `n`. */
  function CountPackets(n: nat, perFrame: nat, k: nat): nat
  {
    if k == 0 then n else CountPacket(CountPackets(n, perFrame, k - 1), perFrame)
  }

  /**
   * Counting a frame's packets from an empty slot: after `k` of them the
   * count is `k`, and the last one returns the slot to 0, so the count is 0
   * (the "first packet of the frame" test) exactly at frame boundaries.
   */
  lemma {:induction false} CountPacketsCycle(perFrame: nat, k: nat)
    requires 0 < perFrame && k <= perFrame
    ensures CountPackets(0, perFrame, k) == if k == perFrame then 0 else k
  {
    if k > 0 {
      CountPacketsCycle(perFrame, k - 1);
    }
  }

  // ---------------------------------------------------------------------
  // FFT request accounting
  // ---------------------------------------------------------------------

  /** Frontier state touched by FFT batching: created count, flags, scheduling frontier. */
  datatype FftState = FftState(created: nat, flags: nat, sche: nat)

  /**
   * One FFT request handed to a worker: the created count goes up and wraps
   * to 0 when a frame's worth of requests has been issued; in Bigstation
   * mode that wrap also reports the frame's uplink as complete.
   */
  function FftIssueStep(c: Config, s: FftState): FftState
    requires c.bfAntNum <= c.bsAntNum
  {
    var n := s.created + 1;
    if n == c.RxPktsPerFrame() then
      if c.bigstationMode then
        var r := NextSchedule(s.flags, s.sche, FlagUplinkComplete, c.NumULSyms(), c.NumDLSyms());
        FftState(0, r.0, r.1)
      else FftState(0, s.flags, s.sche)
    else FftState(n, s.flags, s.sche)
  }

  /** `k` FFT requests issued one after another. */
  function FftIssueSteps(c: Config, s: FftState, k: nat): FftState
    requires c.bfAntNum <= c.bsAntNum
  {
    if k == 0 then s else FftIssueStep(c, FftIssueSteps(c, s, k - 1))
  }

  /** The created count stays below a frame's worth of requests. */
  lemma {:induction false} FftIssueStepsBounded(c: Config, s: FftState, k: nat)
    requires c.bfAntNum <= c.bsAntNum
    requires s.created < c.RxPktsPerFrame()
    ensures FftIssueSteps(c, s, k).created < c.RxPktsPerFrame()
  {
    if k > 0 {
      FftIssueStepsBounded(c, s, k - 1);
    }
  }

  /** Outside Bigstation mode FFT batching never moves the scheduling frontier. */
  lemma {:induction false} FftIssueStepsKeepFrontier(c: Config, s: FftState, k: nat)
    requires c.bfAntNum <= c.bsAntNum && !c.bigstationMode
    ensures FftIssueSteps(c, s, k).sche == s.sche && FftIssueSteps(c, s, k).flags == s.flags
  {
    if k > 0 {
      FftIssueStepsKeepFrontier(c, s, k - 1);
    }
  }

  /** Each request moves the scheduling frontier by at most one frame, never back. */
  lemma {:induction false} FftIssueStepsAdvance(c: Config, s: FftState, k: nat)
    requires c.bfAntNum <= c.bsAntNum
    ensures s.sche <= FftIssueSteps(c, s, k).sche <= s.sche + k
  {
    if k > 0 {
      FftIssueStepsAdvance(c, s, k - 1);
    }
  }

  /** Issuing `j` requests and then `k` more is issuing `j + k`. */
  lemma {:induction false} FftIssueStepsCompose(c: Config, s: FftState, j: nat, k: nat)
    requires c.bfAntNum <= c.bsAntNum
    ensures FftIssueSteps(c, FftIssueSteps(c, s, j), k) == FftIssueSteps(c, s, j + k)
    decreases k
  {
    if k > 0 {
      FftIssueStepsCompose(c, s, j, k - 1);
    }
  }
}
