/**
 * The sequential parts of the task worker pools: the CPU-mask check and the
 * per-worker mask choice made by the base pool's constructor, the per-worker
 * "active" flags (is_yield) with their force-sleep/force-wake controls, the
 * worker-index counter claimed by each pop loop, and the configuration checks
 * of the prioritized pool. Threads, queues, condition-variable waits and the
 * quiescence barrier are not modelled.
 */
module TaskWorkerPool {
  import opened Wrappers

  /** A CPU affinity bitmask: the set of cores a worker may run on. */
  datatype CpuMask = CpuMask(cpus: set<nat>)

  /**
   * What the constructor hands to the OS thread layer for worker `index`:
   * the thread is named "<poolName>#<index>"; `cpuMask` is None when the
   * thread is created without an affinity mask.
   */
  datatype WorkerThread = WorkerThread(poolName: string, index: nat, priority: int, cpuMask: Option<CpuMask>)

  /** The configuration errors that the source reports as fatal. */
  datatype FatalError = WrongCpuMaskArray | NoWorkers | TooFewQueues | WorkerIndexOutOfRange

  /** A worker's private condition variable. */
  class CondVar {
    constructor () {}
  }

  /** A worker's private mutex. */
  class Mutex {
    constructor () {}
  }

  /** Whether `sub` occurs in `s` (std::string::find != npos). */
  predicate Contains(s: string, sub: string)
    decreases |s|
  {
    (|sub| <= |s| && s[..|sub|] == sub) || (s != [] && Contains(s[1..], sub))
  }

  /** Pools whose name mentions "up_phy_dl" or "pusch" start with only part of their workers active. */
  predicate Throttled(poolName: string)
  {
    Contains(poolName, "up_phy_dl") || Contains(poolName, "pusch")
  }

  /** The number of workers that start active in a throttled pool: n/2, or 1 when n/2 is zero. */
  function ActiveWorkers(nofWorkers: nat): (r: nat)
    ensures r >= 1
    ensures nofWorkers >= 2 ==> 2 * r <= nofWorkers < 2 * r + 2
    ensures nofWorkers < 2 ==> r == 1
    ensures nofWorkers > 0 ==> r <= nofWorkers
  {
    if nofWorkers / 2 != 0 then nofWorkers / 2 else 1
  }

  /** The initial value of is_yield: worker i is active unless it is past ActiveWorkers in a throttled pool. */
  function InitialYield(poolName: string, nofWorkers: nat): seq<bool>
  {
    seq(nofWorkers, i => !(i >= ActiveWorkers(nofWorkers) && Throttled(poolName)))
  }

  /** An array of CPU masks is accepted when it holds 0 or 1 masks, or exactly one per worker. */
  function CpuMasksAccepted(nofMasks: nat, nofWorkers: nat): (ok: bool)
    ensures ok <==> nofMasks <= 1 || nofMasks == nofWorkers
    ensures nofMasks > 1 && nofMasks != nofWorkers ==> !ok
  {
    if nofMasks > 1 then nofMasks == nofWorkers else true
  }

  /** The mask worker i is created with: none, the single shared mask, or its own. */
  function MaskFor(cpuMasks: seq<CpuMask>, i: nat): (m: Option<CpuMask>)
    requires |cpuMasks| <= 1 || i < |cpuMasks|
    ensures cpuMasks == [] <==> m == None
    ensures |cpuMasks| == 1 ==> m == Some(cpuMasks[0])
    ensures |cpuMasks| > 1 ==> m == Some(cpuMasks[i])
  {
    if cpuMasks == [] then None
    else if |cpuMasks| == 1 then Some(cpuMasks[0])
    else Some(cpuMasks[i])
  }

  /**
   * The checks made while a prioritized pool is built, in source order: the
   * base pool's CPU-mask check, then a positive number of workers, then at
   * least two priority queues.
   */
  function PriorityPoolCheck(nofWorkers: nat, nofQueues: nat, nofMasks: nat): (r: Outcome<FatalError>)
    ensures r == Pass <==> CpuMasksAccepted(nofMasks, nofWorkers) && nofWorkers > 0 && nofQueues >= 2
    ensures r == Fail(WrongCpuMaskArray) <==> !CpuMasksAccepted(nofMasks, nofWorkers)
    ensures r == Fail(NoWorkers) <==> CpuMasksAccepted(nofMasks, nofWorkers) && nofWorkers == 0
    ensures r == Fail(TooFewQueues) <==> CpuMasksAccepted(nofMasks, nofWorkers) && nofWorkers > 0 && nofQueues < 2
  {
    if !CpuMasksAccepted(nofMasks, nofWorkers) then Fail(WrongCpuMaskArray)
    else if nofWorkers == 0 then Fail(NoWorkers)
    else if nofQueues < 2 then Fail(TooFewQueues)
    else Pass
  }

  lemma InitialYieldAt(poolName: string, nofWorkers: nat, i: nat)
    requires i < nofWorkers
    ensures |InitialYield(poolName, nofWorkers)| == nofWorkers
    ensures InitialYield(poolName, nofWorkers)[i] == !(i >= ActiveWorkers(nofWorkers) && Throttled(poolName))
  {
  }

  /** Number of true entries of a flag vector. */
  function CountActive(flags: seq<bool>): nat
  {
    if flags == [] then 0 else (if flags[0] then 1 else 0) + CountActive(flags[1..])
  }

  /** Worker 0 of every non-empty pool starts active. */
  lemma WorkerZeroStartsActive(poolName: string, nofWorkers: nat)
    requires nofWorkers > 0
    ensures |InitialYield(poolName, nofWorkers)| == nofWorkers
    ensures InitialYield(poolName, nofWorkers)[0]
  {
    InitialYieldAt(poolName, nofWorkers, 0);
  }

  /** A pool whose name mentions neither "up_phy_dl" nor "pusch" starts with every worker active. */
  lemma UnthrottledPoolFullyActive(poolName: string, nofWorkers: nat)
    requires !Throttled(poolName)
    ensures CountActive(InitialYield(poolName, nofWorkers)) == nofWorkers
  {
    ActivePrefixCount(InitialYield(poolName, nofWorkers), nofWorkers);
  }

  /** A throttled pool with workers starts with exactly ActiveWorkers(n) of them active, the first ones. */
  lemma ThrottledPoolActiveCount(poolName: string, nofWorkers: nat)
    requires Throttled(poolName) && nofWorkers > 0
    ensures CountActive(InitialYield(poolName, nofWorkers)) == ActiveWorkers(nofWorkers)
  {
    ActivePrefixCount(InitialYield(poolName, nofWorkers), ActiveWorkers(nofWorkers));
  }

  /** A flag vector whose true entries are exactly its first `a` entries has `a` true entries. */
  lemma {:induction false} ActivePrefixCount(flags: seq<bool>, a: nat)
    requires a <= |flags|
    requires forall i :: 0 <= i < |flags| ==> (flags[i] <==> i < a)
    ensures CountActive(flags) == a
  {
    if flags != [] {
      if a == 0 {
        ActivePrefixCount(flags[1..], 0);
      } else {
        ActivePrefixCount(flags[1..], a - 1);
      }
    }
  }

  /**
   * A task worker pool: the per-worker control vectors and the threads the
   * constructor creates. `isYield[i]` is worker i's active flag.
   */
  class WorkerPool {
    const poolName: string
    const nofWorkers: nat
    var isYield: seq<bool>
    var cv: seq<CondVar>
    var mtx: seq<Mutex>
    var workerThreads: seq<WorkerThread>
    /** The last worker index handed out by UpdateId; pop loops use it 1-based. */
    var id: nat

    ghost predicate Valid()
      reads this
    {
      && |isYield| == nofWorkers
      && |cv| == nofWorkers
      && |mtx| == nofWorkers
      && |workerThreads| == nofWorkers
    }

    /**
     * base_worker_pool's constructor. A CPU-mask array with more than one
     * entry that does not hold one mask per worker is a fatal error: such a
     * pool is never built.
     */
    constructor (nofWorkers: nat, poolName: string, prio: int, cpuMasks: seq<CpuMask>)
      requires CpuMasksAccepted(|cpuMasks|, nofWorkers)
      ensures Valid()
      ensures this.poolName == poolName && this.nofWorkers == nofWorkers && id == 0
      ensures isYield == InitialYield(poolName, nofWorkers)
      ensures forall i :: 0 <= i < nofWorkers ==> fresh(cv[i]) && fresh(mtx[i])
      ensures forall i, j :: 0 <= i < j < nofWorkers ==> cv[i] != cv[j] && mtx[i] != mtx[j]
      ensures forall i :: 0 <= i < nofWorkers ==>
                workerThreads[i] == WorkerThread(poolName, i, prio, MaskFor(cpuMasks, i))
    {
      this.poolName := poolName;
      this.nofWorkers := nofWorkers;
      id := 0;
      var actualWorkers := if nofWorkers / 2 != 0 then nofWorkers / 2 else 1;
      var flags: seq<bool> := [];
      var cvs: seq<CondVar> := [];
      var mtxs: seq<Mutex> := [];
      var i := 0;
      while i < nofWorkers
        invariant 0 <= i <= nofWorkers
        invariant |flags| == i && |cvs| == i && |mtxs| == i
        invariant flags == InitialYield(poolName, nofWorkers)[..i]
        invariant forall k :: 0 <= k < i ==> fresh(cvs[k]) && fresh(mtxs[k])
        invariant forall k, l :: 0 <= k < l < i ==> cvs[k] != cvs[l] && mtxs[k] != mtxs[l]
      {
        flags := flags + [!(i >= actualWorkers && (Contains(poolName, "up_phy_dl") || Contains(poolName, "pusch")))];
        InitialYieldAt(poolName, nofWorkers, i);
        var c := new CondVar();
        var m := new Mutex();
        cvs := cvs + [c];
        mtxs := mtxs + [m];
        i := i + 1;
      }
      var threads: seq<WorkerThread> := [];
      i := 0;
      while i != nofWorkers
        invariant 0 <= i <= nofWorkers
        invariant |threads| == i
        invariant forall k :: 0 <= k < i ==> threads[k] == WorkerThread(poolName, k, prio, MaskFor(cpuMasks, k))
      {
        if cpuMasks == [] {
          threads := threads + [WorkerThread(poolName, i, prio, None)];
        } else {
          var cpuMask := if |cpuMasks| == 1 then cpuMasks[0] else cpuMasks[i];
          threads := threads + [WorkerThread(poolName, i, prio, Some(cpuMask))];
        }
        i := i + 1;
      }
      isYield := flags;
      cv := cvs;
      mtx := mtxs;
      workerThreads := threads;
    }

    /** Advances the worker-index counter by one and returns the new value. */
    method UpdateId() returns (newId: nat)
      modifies this`id
      ensures id == old(id) + 1
      ensures newId == id
    {
      id := id + 1;
      newId := id;
    }

    /**
     * The start of a throttled pool's pop loop: claim the next 1-based index
     * and read that worker's active flag at index - 1. The read is in bounds
     * exactly when the claimed index lies in 1..nofWorkers, which is what
     * the requires states.
     */
    method ClaimWorkerIndex() returns (index: nat, active: bool)
      requires Valid() && id < nofWorkers
      modifies this`id
      ensures Valid()
      ensures index == id == old(id) + 1
      ensures 1 <= index <= nofWorkers
      ensures active == isYield[index - 1]
    {
      index := UpdateId();
      active := isYield[index - 1];
    }

    /**
     * Clears worker `index`'s active flag whatever its prior value (the
     * source ANDs it with false). An index past the flag vector is fatal and
     * changes nothing.
     */
    method ThreadForceSleep(index: nat) returns (r: Outcome<FatalError>)
      modifies this`isYield
      ensures index < |old(isYield)| ==> r == Pass && isYield == old(isYield)[index := false]
      ensures index >= |old(isYield)| ==> r == Fail(WorkerIndexOutOfRange) && isYield == old(isYield)
      ensures |isYield| == |old(isYield)|
    {
      if !(index < |isYield|) {
        return Fail(WorkerIndexOutOfRange);
      }
      isYield := isYield[index := isYield[index] && false];
      r := Pass;
    }

    /**
     * Sets worker `index`'s active flag whatever its prior value (the source
     * ORs it with true). An index past the flag vector is fatal and changes
     * nothing.
     */
    method ThreadForceWake(index: nat) returns (r: Outcome<FatalError>)
      modifies this`isYield
      ensures index < |old(isYield)| ==> r == Pass && isYield == old(isYield)[index := true]
      ensures index >= |old(isYield)| ==> r == Fail(WorkerIndexOutOfRange) && isYield == old(isYield)
      ensures |isYield| == |old(isYield)|
    {
      if !(index < |isYield|) {
        return Fail(WorkerIndexOutOfRange);
      }
      isYield := isYield[index := isYield[index] || true];
      r := Pass;
    }
  }
}
