/**
 * The ITRON `rot_rdq` service call ("rotate tasks on the ready queue")
 * over an explicitly owned scheduler context.
 *
 * The kernel primitives it calls live outside this model: the mapping
 * `_ITRON_Task_Core_to_Priority`, the effect of `_Thread_Yield_processor`
 * and the effect of `_Thread_Rotate_Ready_Queue` are abstract functions
 * supplied with the context (`KernelOps`). Each call of yield or rotate is
 * also recorded, with the dispatch-disable level at which it ran, so that
 * what `rot_rdq` asks of the kernel can be stated exactly without giving
 * the ready queues any particular rotation semantics.
 */
module ItronRotRdq {

  /** The ITRON error codes `rot_rdq` can return. */
  datatype ER = E_OK | E_PAR

  /** Ready threads (by identity), per core priority, in queue order. */
  type ReadyQueues = map<int, seq<nat>>

  /** The kernel services `rot_rdq` relies on, as uninterpreted functions. */
  datatype KernelOps = KernelOps(
    coreToPriority: int -> int,                                 // _ITRON_Task_Core_to_Priority
    yieldEffect: (ReadyQueues, int) -> ReadyQueues,             // _Thread_Yield_processor, given the executing thread's priority
    rotateEffect: (ReadyQueues, int) -> ReadyQueues             // _Thread_Rotate_Ready_Queue(priority)
  )

  /** A ready-queue operation performed, with the dispatch-disable level it ran at. */
  datatype SchedEvent =
    | Yielded(disableLevel: nat)
    | Rotated(priority: int, disableLevel: nat)

  /** The scheduler state `rot_rdq` reads and changes. */
  datatype SchedState = SchedState(
    disableLevel: nat,        // _Thread_Dispatch_disable_level
    ready: ReadyQueues,       // the per-priority ready queues
    executingPriority: int,   // _Thread_Executing->current_priority (core numbering)
    events: seq<SchedEvent>)  // yields and rotations performed so far

  /** `_Thread_Yield_processor`: the executing thread's queue, by the kernel's rule. */
  function AfterYield(ops: KernelOps, s: SchedState): SchedState
  {
    s.(ready := ops.yieldEffect(s.ready, s.executingPriority),
       events := s.events + [Yielded(s.disableLevel)])
  }

  /** `_Thread_Rotate_Ready_Queue(priority)`: the named queue, by the kernel's rule. */
  function AfterRotate(ops: KernelOps, s: SchedState, priority: int): SchedState
  {
    s.(ready := ops.rotateEffect(s.ready, priority),
       events := s.events + [Rotated(priority, s.disableLevel)])
  }

  /** Whether `tskpri` is a priority `rot_rdq` accepts. */
  predicate ValidTaskPriority(tskpri: int)
  {
    !(tskpri <= 0 || tskpri >= 256)
  }

  /**
   * The status and new state of one `rot_rdq(tskpri)` call.
   *
   * Priorities outside 1..255 are refused with nothing changed. An accepted
   * call returns `E_OK` with the dispatch-disable level back where it was,
   * and has performed exactly one ready-queue operation, while dispatching
   * was disabled: a yield when the executing thread's mapped priority is
   * `tskpri`, and otherwise a rotation of the queue at the mapped `tskpri`.
   * The mapping applied to `tskpri` is `coreToPriority`, as written in the
   * source.
   */
  function RotRdqEffect(ops: KernelOps, s: SchedState, tskpri: int): (r: (ER, SchedState))
    ensures r.0 == E_PAR <==> !ValidTaskPriority(tskpri)
    ensures r.0 == E_PAR ==> r.1 == s
    ensures r.0 == E_OK ==>
      r.1.disableLevel == s.disableLevel && r.1.executingPriority == s.executingPriority
    ensures r.0 == E_OK ==>
      |r.1.events| == |s.events| + 1 && r.1.events[..|s.events|] == s.events &&
      r.1.events[|s.events|].disableLevel == s.disableLevel + 1
    ensures r.0 == E_OK ==>
      (r.1.events[|s.events|].Yielded? <==> ops.coreToPriority(s.executingPriority) == tskpri)
    ensures r.0 == E_OK && ops.coreToPriority(s.executingPriority) == tskpri ==>
      r.1.ready == ops.yieldEffect(s.ready, s.executingPriority)
    ensures r.0 == E_OK && ops.coreToPriority(s.executingPriority) != tskpri ==>
      r.1.events[|s.events|] == Rotated(ops.coreToPriority(tskpri), s.disableLevel + 1) &&
      r.1.ready == ops.rotateEffect(s.ready, ops.coreToPriority(tskpri))
  {
    if !ValidTaskPriority(tskpri) then (E_PAR, s)
    else
      var disabled := s.(disableLevel := s.disableLevel + 1);
      var priority := ops.coreToPriority(disabled.executingPriority);
      var done := if priority == tskpri then AfterYield(ops, disabled)
                  else AfterRotate(ops, disabled, ops.coreToPriority(tskpri));
      (E_OK, done.(disableLevel := done.disableLevel - 1))
  }

  /** The state after a series of `rot_rdq` calls, made one after another. */
  function RotRdqSeries(ops: KernelOps, s: SchedState, calls: seq<int>): SchedState
    decreases |calls|
  {
    if calls == [] then s
    else RotRdqSeries(ops, RotRdqEffect(ops, s, calls[0]).1, calls[1..])
  }

  /** How many of `calls` lie in the accepted range 1..255. */
  function AcceptedCount(calls: seq<int>): (n: nat)
    ensures n <= |calls|
  {
    if calls == [] then 0
    else (if ValidTaskPriority(calls[0]) then 1 else 0) + AcceptedCount(calls[1..])
  }

  /**
   * Because every accepted call pairs its disable with an enable, any series
   * of calls leaves the dispatch-disable level and the executing priority as
   * they were, and performs exactly one ready-queue operation per accepted
   * call and none for a refused one.
   */
  lemma {:induction false} SeriesKeepsDispatchLevel(ops: KernelOps, s: SchedState, calls: seq<int>)
    ensures RotRdqSeries(ops, s, calls).disableLevel == s.disableLevel
    ensures RotRdqSeries(ops, s, calls).executingPriority == s.executingPriority
    ensures |RotRdqSeries(ops, s, calls).events| == |s.events| + AcceptedCount(calls)
    ensures RotRdqSeries(ops, s, calls).events[..|s.events|] == s.events
    decreases |calls|
  {
    if calls != [] {
      var s1 := RotRdqEffect(ops, s, calls[0]).1;
      SeriesKeepsDispatchLevel(ops, s1, calls[1..]);
      assert RotRdqSeries(ops, s, calls).events[..|s.events|] == s1.events[..|s.events|];
    }
  }

  /** The scheduler context: the kernel state `rot_rdq` works on, owned by one object. */
  class SchedulerContext {
    const ops: KernelOps
    var dispatchDisableLevel: nat
    var ready: ReadyQueues
    var executingPriority: int
    var events: seq<SchedEvent>

    function State(): SchedState
      reads this
    {
      SchedState(dispatchDisableLevel, ready, executingPriority, events)
    }

    /** A context with dispatching enabled and nothing performed yet. */
    constructor (ops: KernelOps, ready: ReadyQueues, executingPriority: int)
      ensures this.ops == ops
      ensures State() == SchedState(0, ready, executingPriority, [])
    {
      this.ops := ops;
      this.dispatchDisableLevel := 0;
      this.ready := ready;
      this.executingPriority := executingPriority;
      this.events := [];
    }

    /** `_Thread_Disable_dispatch`: one more level of nesting. */
    method DisableDispatch()
      modifies this
      ensures State() == old(State()).(disableLevel := old(dispatchDisableLevel) + 1)
    {
      dispatchDisableLevel := dispatchDisableLevel + 1;
    }

    /** `_Thread_Enable_dispatch`: one level less (the dispatch at zero is not modelled). */
    method EnableDispatch()
      requires dispatchDisableLevel > 0
      modifies this
      ensures State() == old(State()).(disableLevel := old(dispatchDisableLevel) - 1)
    {
      dispatchDisableLevel := dispatchDisableLevel - 1;
    }

    method YieldProcessor()
      modifies this
      ensures State() == AfterYield(ops, old(State()))
    {
      ready := ops.yieldEffect(ready, executingPriority);
      events := events + [Yielded(dispatchDisableLevel)];
    }

    method RotateReadyQueue(priority: int)
      modifies this
      ensures State() == AfterRotate(ops, old(State()), priority)
    {
      ready := ops.rotateEffect(ready, priority);
      events := events + [Rotated(priority, dispatchDisableLevel)];
    }

    /** `rot_rdq(tskpri)`. */
    method RotRdq(tskpri: int) returns (er: ER)
      modifies this
      ensures (er, State()) == RotRdqEffect(ops, old(State()), tskpri)
    {
      if tskpri <= 0 || tskpri >= 256 {
        return E_PAR;
      }
      DisableDispatch();
      var priority := ops.coreToPriority(executingPriority);
      if priority == tskpri {
        YieldProcessor();
      } else {
        RotateReadyQueue(ops.coreToPriority(tskpri));
      }
      EnableDispatch();
      return E_OK;
    }
  }
}
