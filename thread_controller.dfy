/**
 * The telemetry ring buffers kept by the DL and PUSCH thread controllers:
 * fixed-size circular buffers of execution times, wait times, pop
 * intervals, queue lengths and task timestamps, with wrap-around write
 * indices and running sums. The two source classes differ only in the size
 * of the task-timestamp buffer (200 for DL, 100 for PUSCH), so one class
 * with two constructors models both. Integers are unbounded: overflow of
 * the source's `long` and `int` fields is not modelled.
 */
module ThreadControl {

  /** Size of the execution-time, wait-time, pop-interval and length rings. */
  const RingSize: nat := 100
  /** Size of the DL controller's task-timestamp ring. */
  const DlCreateSize: nat := 200
  /** Size of the PUSCH controller's task-timestamp ring. */
  const PuschCreateSize: nat := 100

  /** Sum of a buffer's entries. */
  function Sum(s: seq<int>): int
  {
    if s == [] then 0 else s[0] + Sum(s[1..])
  }

  /** Overwriting one slot changes the sum by the new value minus the old one. */
  lemma {:induction false} SumUpdate(s: seq<int>, i: nat, v: int)
    requires i < |s|
    ensures Sum(s[i := v]) == Sum(s) - s[i] + v
  {
    if i > 0 {
      SumUpdate(s[1..], i - 1, v);
      assert s[i := v][1..] == s[1..][i - 1 := v];
    }
  }

  /** A buffer of zeros sums to zero. */
  lemma {:induction false} SumZeros(s: seq<int>)
    requires forall k :: 0 <= k < |s| ==> s[k] == 0
    ensures Sum(s) == 0
  {
    if s != [] {
      SumZeros(s[1..]);
    }
  }

  /** The next write position of a ring of `size` slots. */
  function Advance(index: nat, size: nat): (r: nat)
    requires index < size
    ensures r < size
    ensures r == index + 1 || (index == size - 1 && r == 0)
  {
    (index + 1) % size
  }

  /**
   * One controller's ring buffers. The arrays are allocated once by the
   * constructor; every update overwrites one slot and advances that ring's
   * index.
   */
  class ThreadController {
    const execTime: array<int>
    var execLen: nat
    var execSum: int

    const waitTime: array<int>
    var waitLen: nat
    var waitSum: int

    const popTimeInterval: array<int>
    var intervalLen: nat
    var intervalSum: int
    var prev: int

    const taskLenQueue: array<int>
    var taskLen: nat
    var lenIncre: int

    const createTime: array<(int, int)>
    var createLen: nat

    /**
     * The object invariant: every ring has its fixed size, every index is
     * inside its ring, the execution and wait sums equal their buffers'
     * sums and the length trend counter is never negative. No invariant
     * ties intervalSum to its buffer: update_pop_time does not keep one.
     */
    ghost predicate Valid()
      reads this, execTime, waitTime, popTimeInterval, taskLenQueue
    {
      && execTime.Length == RingSize && execLen < RingSize && execSum == Sum(execTime[..])
      && waitTime.Length == RingSize && waitLen < RingSize && waitSum == Sum(waitTime[..])
      && popTimeInterval.Length == RingSize && intervalLen < RingSize
      && taskLenQueue.Length == RingSize && taskLen < RingSize && lenIncre >= 0
      && createTime.Length > 0 && createLen < createTime.Length
      && execTime != waitTime && execTime != popTimeInterval && execTime != taskLenQueue
      && waitTime != popTimeInterval && waitTime != taskLenQueue && popTimeInterval != taskLenQueue
    }

    /** The initial state shared by both controllers: zero-filled rings, zero indices, sums and counters. */
    ghost predicate Initial()
      reads this, execTime, waitTime, popTimeInterval, taskLenQueue, createTime
    {
      && (forall k :: 0 <= k < execTime.Length ==> execTime[k] == 0)
      && (forall k :: 0 <= k < waitTime.Length ==> waitTime[k] == 0)
      && (forall k :: 0 <= k < popTimeInterval.Length ==> popTimeInterval[k] == 0)
      && (forall k :: 0 <= k < taskLenQueue.Length ==> taskLenQueue[k] == 0)
      && (forall k :: 0 <= k < createTime.Length ==> createTime[k] == (0, 0))
      && execLen == 0 && execSum == 0 && waitLen == 0 && waitSum == 0
      && intervalLen == 0 && intervalSum == 0 && prev == 0
      && taskLen == 0 && lenIncre == 0 && createLen == 0
    }

    /** dl_thread_controller: a 200-slot task-timestamp ring. */
    constructor Dl()
      ensures Valid() && Initial()
      ensures createTime.Length == DlCreateSize
      ensures fresh(execTime) && fresh(waitTime) && fresh(popTimeInterval) && fresh(taskLenQueue) && fresh(createTime)
    {
      execTime := new int[RingSize](_ => 0);
      waitTime := new int[RingSize](_ => 0);
      popTimeInterval := new int[RingSize](_ => 0);
      taskLenQueue := new int[RingSize](_ => 0);
      createTime := new (int, int)[DlCreateSize](_ => (0, 0));
      execLen, execSum := 0, 0;
      waitLen, waitSum := 0, 0;
      intervalLen, intervalSum, prev := 0, 0, 0;
      taskLen, lenIncre := 0, 0;
      createLen := 0;
      new;
      SumZeros(execTime[..]);
      SumZeros(waitTime[..]);
    }

    /** pusch_thread_controller: a 100-slot task-timestamp ring. */
    constructor Pusch()
      ensures Valid() && Initial()
      ensures createTime.Length == PuschCreateSize
      ensures fresh(execTime) && fresh(waitTime) && fresh(popTimeInterval) && fresh(taskLenQueue) && fresh(createTime)
    {
      execTime := new int[RingSize](_ => 0);
      waitTime := new int[RingSize](_ => 0);
      popTimeInterval := new int[RingSize](_ => 0);
      taskLenQueue := new int[RingSize](_ => 0);
      createTime := new (int, int)[PuschCreateSize](_ => (0, 0));
      execLen, execSum := 0, 0;
      waitLen, waitSum := 0, 0;
      intervalLen, intervalSum, prev := 0, 0, 0;
      taskLen, lenIncre := 0, 0;
      createLen := 0;
      new;
      SumZeros(execTime[..]);
      SumZeros(waitTime[..]);
    }

    /** Records an execution time: overwrites the oldest slot and keeps execSum equal to the ring's sum. */
    method UpdateExecTime(t: int)
      requires Valid()
      modifies this`execLen, this`execSum, execTime
      ensures Valid()
      ensures execTime[..] == old(execTime[..])[old(execLen) := t]
      ensures execLen == Advance(old(execLen), RingSize)
      ensures execSum == old(execSum) - old(execTime[execLen]) + t
    {
      SumUpdate(execTime[..], execLen, t);
      execSum := execSum - execTime[execLen];
      execTime[execLen] := t;
      execLen := (execLen + 1) % RingSize;
      execSum := execSum + t;
    }

    /** Records a wait time, with the same guarantees as UpdateExecTime on the wait ring. */
    method UpdateWaitTime(t: int)
      requires Valid()
      modifies this`waitLen, this`waitSum, waitTime
      ensures Valid()
      ensures waitTime[..] == old(waitTime[..])[old(waitLen) := t]
      ensures waitLen == Advance(old(waitLen), RingSize)
      ensures waitSum == old(waitSum) - old(waitTime[waitLen]) + t
    {
      SumUpdate(waitTime[..], waitLen, t);
      waitSum := waitSum - waitTime[waitLen];
      waitTime[waitLen] := t;
      waitLen := (waitLen + 1) % RingSize;
      waitSum := waitSum + t;
    }

    /**
     * Records a pop timestamp. The first call (prev == 0) only remembers t.
     * Later calls store the interval t - prev at intervalLen, but adjust
     * intervalSum by subtracting the slot at execLen and adding t itself,
     * so intervalSum does not track the interval ring's sum.
     */
    method UpdatePopTime(t: int)
      requires Valid()
      modifies this`intervalLen, this`intervalSum, this`prev, popTimeInterval
      ensures Valid()
      ensures prev == t
      ensures old(prev) == 0 ==>
        popTimeInterval[..] == old(popTimeInterval[..]) && intervalLen == old(intervalLen)
        && intervalSum == old(intervalSum)
      ensures old(prev) != 0 ==>
        popTimeInterval[..] == old(popTimeInterval[..])[old(intervalLen) := t - old(prev)]
        && intervalLen == Advance(old(intervalLen), RingSize)
        && intervalSum == old(intervalSum) - old(popTimeInterval[execLen]) + t
    {
      if prev != 0 {
        intervalSum := intervalSum - popTimeInterval[execLen];
        popTimeInterval[intervalLen] := t - prev;
        intervalLen := (intervalLen + 1) % RingSize;
        intervalSum := intervalSum + t;
      }
      prev := t;
    }

    /**
     * Records a queue length. The trend counter goes up when the new length
     * exceeds the one it overwrites and otherwise down, but never below zero.
     */
    method UpdateLength(len: int)
      requires Valid()
      modifies this`taskLen, this`lenIncre, taskLenQueue
      ensures Valid()
      ensures taskLenQueue[..] == old(taskLenQueue[..])[old(taskLen) := len]
      ensures taskLen == Advance(old(taskLen), RingSize)
      ensures old(taskLenQueue[taskLen]) < len ==> lenIncre == old(lenIncre) + 1
      ensures old(taskLenQueue[taskLen]) >= len && old(lenIncre) > 0 ==> lenIncre == old(lenIncre) - 1
      ensures old(taskLenQueue[taskLen]) >= len && old(lenIncre) == 0 ==> lenIncre == 0
    {
      if taskLenQueue[taskLen] < len {
        lenIncre := lenIncre + 1;
      } else if lenIncre > 0 {
        lenIncre := lenIncre - 1;
      }
      taskLenQueue[taskLen] := len;
      taskLen := (taskLen + 1) % RingSize;
    }

    /** Records a task's two timestamps in the timestamp ring, which wraps at its own size. */
    method UpdateTaskTime(t1: int, t2: int)
      requires Valid()
      modifies this`createLen, createTime
      ensures Valid()
      ensures createTime[..] == old(createTime[..])[old(createLen) := (t1, t2)]
      ensures createLen == Advance(old(createLen), createTime.Length)
    {
      createTime[createLen] := (t1, t2);
      createLen := (createLen + 1) % createTime.Length;
    }
  }

  /**
   * The pop-interval running sum drifts from the interval ring at the second
   * pop: on a fresh DL controller, a first pop at any non-zero time t1 and a
   * second at t2 leave a ring that sums to the one interval t2 - t1, while
   * intervalSum is t2 (the pop time, not the interval, is added). A first
   * pop at time 0 is taken for "no previous pop", so the second pop records
   * nothing either.
   */
  method PopIntervalSumDrift(t1: int, t2: int) returns (intervalSum: int, ringSum: int)
    ensures t1 != 0 ==> intervalSum == t2 && ringSum == t2 - t1
    ensures t1 == 0 ==> intervalSum == 0 && ringSum == 0
  {
    var c := new ThreadController.Dl();
    ghost var zeros := c.popTimeInterval[..];
    SumZeros(zeros);
    c.UpdatePopTime(t1);
    c.UpdatePopTime(t2);
    if t1 != 0 {
      SumUpdate(zeros, 0, t2 - t1);
    }
    intervalSum := c.intervalSum;
    ringSum := Sum(c.popTimeInterval[..]);
  }
}
