/**
 * The per-stage completion counters the coordinator keeps. Each counter
 * tracks, per frame slot (frame modulo the frame window), how many tasks of
 * each symbol and how many whole symbols of a stage have completed.
 *
 * A counter is a value here: the coordinator replaces its counter fields
 * with the updated value that each operation returns. The frame window is
 * the one all counters share, so each operation takes it as a parameter.
 */
module FrameCounters {

  function Lookup<K>(m: map<K, nat>, k: K): nat
  {
    if k in m then m[k] else 0
  }

  datatype Counters = Counters(
    maxSymbols: nat,
    maxTasks: nat,
    symbolCount: map<nat, nat>,        // slot -> completed symbols
    taskCount: map<nat, map<nat, nat>>)   // slot -> symbol -> completed tasks
  {
    function GetSymbolCount(window: nat, frame: nat): nat
      requires window > 0
    {
      Lookup(symbolCount, frame % window)
    }

    function GetTaskCount(window: nat, frame: nat, symbol: nat): nat
      requires window > 0
    {
      Lookup(SlotTasks(frame % window), symbol)
    }

    /** The task counts of one slot (none yet: all zero). */
    function SlotTasks(slot: nat): map<nat, nat>
    {
      if slot in taskCount then taskCount[slot] else map[]
    }

    /** All symbols of the frame are done. */
    predicate IsLastSymbol(window: nat, frame: nat)
      requires window > 0
    {
      GetSymbolCount(window, frame) == maxSymbols
    }

    /**
     * One more task of (frame, symbol) is done; the flag says whether it was
     * the symbol's last task.
     */
    function CompleteTask(window: nat, frame: nat, symbol: nat): (r: (Counters, bool))
      requires window > 0
      ensures r.0.maxSymbols == maxSymbols && r.0.maxTasks == maxTasks
      ensures r.0.GetTaskCount(window, frame, symbol) == GetTaskCount(window, frame, symbol) + 1
      ensures r.1 <==> r.0.GetTaskCount(window, frame, symbol) == maxTasks
    {
      var slot := frame % window;
      var n := Lookup(SlotTasks(slot), symbol) + 1;
      (this.(taskCount := taskCount[slot := SlotTasks(slot)[symbol := n]]), n == maxTasks)
    }

    /**
     * The one-argument form used by the beamforming, calibration and MAC
     * counters: one more task of the frame is done, out of `maxSymbols`
     * (the single count those counters are initialised with).
     */
    function CompleteFrameTask(window: nat, frame: nat): (r: (Counters, bool))
      requires window > 0
      ensures r.0.maxSymbols == maxSymbols && r.0.maxTasks == maxTasks
      ensures r.0.GetTaskCount(window, frame, 0) == GetTaskCount(window, frame, 0) + 1
      ensures r.1 <==> r.0.GetTaskCount(window, frame, 0) == maxSymbols
    {
      var slot := frame % window;
      var n := Lookup(SlotTasks(slot), 0) + 1;
      (this.(taskCount := taskCount[slot := SlotTasks(slot)[0 := n]]), n == maxSymbols)
    }

    /** One more symbol of the frame is done; the flag says whether it was the last one. */
    function CompleteSymbol(window: nat, frame: nat): (r: (Counters, bool))
      requires window > 0
      ensures r.0.maxSymbols == maxSymbols && r.0.maxTasks == maxTasks
      ensures r.0.GetSymbolCount(window, frame) == GetSymbolCount(window, frame) + 1
      ensures r.1 <==> r.0.IsLastSymbol(window, frame)
    {
      var slot := frame % window;
      var n := Lookup(symbolCount, slot) + 1;
      (this.(symbolCount := symbolCount[slot := n]), n == maxSymbols)
    }

    /** Clears every count of the frame's slot, leaving the other slots alone. */
    function Reset(window: nat, frame: nat): (c: Counters)
      requires window > 0
      ensures c.maxSymbols == maxSymbols && c.maxTasks == maxTasks
      ensures c.GetSymbolCount(window, frame) == 0
    {
      var slot := frame % window;
      this.(symbolCount := symbolCount[slot := 0], taskCount := taskCount[slot := map[]])
    }
  }

  /** Completing a task touches only that (slot, symbol) task count. */
  lemma CompleteTaskFrame(c: Counters, window: nat, frame: nat, symbol: nat)
    requires window > 0
    ensures var r := c.CompleteTask(window, frame, symbol).0;
      && (forall f: nat, s: nat :: f % window != frame % window || s != symbol ==>
            r.GetTaskCount(window, f, s) == c.GetTaskCount(window, f, s))
      && (forall f: nat :: r.GetSymbolCount(window, f) == c.GetSymbolCount(window, f))
  {
  }

  /** The one-argument form touches only the (slot, 0) task count. */
  lemma CompleteFrameTaskFrame(c: Counters, window: nat, frame: nat)
    requires window > 0
    ensures var r := c.CompleteFrameTask(window, frame).0;
      && (forall f: nat, s: nat :: f % window != frame % window || s != 0 ==>
            r.GetTaskCount(window, f, s) == c.GetTaskCount(window, f, s))
      && (forall f: nat :: r.GetSymbolCount(window, f) == c.GetSymbolCount(window, f))
  {
  }

  /** Completing a symbol touches only that slot's symbol count. */
  lemma CompleteSymbolFrame(c: Counters, window: nat, frame: nat)
    requires window > 0
    ensures var r := c.CompleteSymbol(window, frame).0;
      && (forall f: nat :: f % window != frame % window ==> r.GetSymbolCount(window, f) == c.GetSymbolCount(window, f))
      && (forall f: nat, s: nat :: r.GetTaskCount(window, f, s) == c.GetTaskCount(window, f, s))
  {
  }

  /** A reset clears every task count of the slot and leaves other slots alone. */
  lemma ResetFrame(c: Counters, window: nat, frame: nat)
    requires window > 0
    ensures var r := c.Reset(window, frame);
      && (forall s: nat :: r.GetTaskCount(window, frame, s) == 0)
      && (forall f: nat :: f % window != frame % window ==> r.GetSymbolCount(window, f) == c.GetSymbolCount(window, f))
      && (forall f: nat, s: nat :: f % window != frame % window ==>
            r.GetTaskCount(window, f, s) == c.GetTaskCount(window, f, s))
  {
  }

  /** Counters with every count zero. */
  function Init(maxSymbols: nat, maxTasks: nat): (c: Counters)
    ensures c.maxSymbols == maxSymbols && c.maxTasks == maxTasks
    ensures forall window: nat, f: nat :: window > 0 ==> c.GetSymbolCount(window, f) == 0
    ensures forall window: nat, f: nat, s: nat :: window > 0 ==> c.GetTaskCount(window, f, s) == 0
  {
    Counters(maxSymbols, maxTasks, map[], map[])
  }

  /** `k` successive CompleteSymbol calls on the same frame. */
  function CompleteSymbols(c: Counters, window: nat, frame: nat, k: nat): Counters
    requires window > 0
  {
    if k == 0 then c else CompleteSymbols(c, window, frame, k - 1).CompleteSymbol(window, frame).0
  }

  /**
   * Counting symbols from a freshly reset slot: after k completions the count
   * is k, and the k-th completion reports "last" exactly when k is the
   * configured symbol count, so each reset cycle reports its last symbol once.
   */
  lemma {:induction false} CompleteSymbolsFromReset(c: Counters, window: nat, frame: nat, k: nat)
    requires window > 0
    requires c.GetSymbolCount(window, frame) == 0
    ensures CompleteSymbols(c, window, frame, k).maxSymbols == c.maxSymbols
    ensures CompleteSymbols(c, window, frame, k).GetSymbolCount(window, frame) == k
    ensures k > 0 ==> (CompleteSymbols(c, window, frame, k - 1).CompleteSymbol(window, frame).1 <==> k == c.maxSymbols)
  {
    if k > 0 {
      CompleteSymbolsFromReset(c, window, frame, k - 1);
    }
  }

  /** Counting one frame never disturbs the counts of frames in other slots. */
  lemma {:induction false} CompleteSymbolsOtherSlot(c: Counters, window: nat, frame: nat, other: nat, k: nat)
    requires window > 0
    requires other % window != frame % window
    ensures CompleteSymbols(c, window, frame, k).GetSymbolCount(window, other) == c.GetSymbolCount(window, other)
  {
    if k > 0 {
      CompleteSymbolsOtherSlot(c, window, frame, other, k - 1);
      CompleteSymbolFrame(CompleteSymbols(c, window, frame, k - 1), window, frame);
    }
  }
}
