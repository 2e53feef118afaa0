/**
 * The connection and listing loop of PAManager::InitDevices as pure
 * transitions. PulseAudio's main loop is the environment: each iteration
 * it delivers some callbacks and reports the state of the pending list
 * operation.
 */
module PaConnection {
  import opened Wrappers
  import opened PaDevice
  import opened PaRegistry

  /** Values of the readiness flag that pa_state_cb writes. */
  const WAITING: int := 0
  const READY: int := 1
  const FAILED: int := 2

  /** pa_context_state_t. */
  datatype ContextState =
    Unconnected | Connecting | Authorizing | SettingName | Ready | Failed | Terminated

  /** pa_operation_state_t. */
  datatype OperationState = OpRunning | OpDone | OpCancelled

  /** The two list requests the loop submits. */
  datatype ListRequest = ListSinks | ListSources

  /**
   * pa_state_cb: FAILED and TERMINATED mark the connection failed, READY
   * marks it ready, every other context state leaves the flag alone.
   */
  function StateCallback(ready: int, ctx: ContextState): (r: int)
    ensures ctx == Failed || ctx == Terminated ==> r == FAILED
    ensures ctx == Ready ==> r == READY
    ensures ctx != Failed && ctx != Terminated && ctx != Ready ==> r == ready
  {
    match ctx
    case Failed | Terminated => FAILED
    case Ready => READY
    case _ => ready
  }

  /** A callback that one main-loop iteration may run. */
  datatype Callback =
    | ContextChanged(ctx: ContextState)
    | SinkListed(sink: Option<SinkInfo>, eol: int)
    | SourceListed(source: Option<SourceInfo>, eol: int)

  /**
   * What InitDevices works on: the two device maps the list callbacks fill,
   * the readiness flag, the `state` counter and the pending operation.
   */
  datatype Machine = Machine(
    sinks: DeviceList,
    sources: DeviceList,
    ready: int,
    stage: nat,
    pending: Option<ListRequest>)

  /** The machine at the top of InitDevices, over the manager's current maps. */
  function Start(sinks: DeviceList, sources: DeviceList): (m: Machine)
    ensures m.ready == WAITING && m.stage == 0 && m.pending.None?
    ensures m.sinks == sinks && m.sources == sources
  {
    Machine(sinks, sources, WAITING, 0, None)
  }

  function Dispatch(m: Machine, cb: Callback): (r: Machine)
    ensures r.stage == m.stage && r.pending == m.pending
  {
    match cb
    case ContextChanged(ctx) => m.(ready := StateCallback(m.ready, ctx))
    case SinkListed(info, eol) =>
      var entry := if info.Some? then Some(FromSinkInfo(info.value)) else None;
      m.(sinks := ListCallback(m.sinks, entry, eol))
    case SourceListed(info, eol) =>
      var entry := if info.Some? then Some(FromSourceInfo(info.value)) else None;
      m.(sources := ListCallback(m.sources, entry, eol))
  }

  /** The callbacks of one iteration, run in order. */
  function DispatchAll(m: Machine, cbs: seq<Callback>): (r: Machine)
    ensures r.stage == m.stage && r.pending == m.pending
    decreases |cbs|
  {
    if cbs == [] then m else DispatchAll(Dispatch(m, cbs[0]), cbs[1..])
  }

  /** One pass of the `while(!bDone)` loop as the environment plays it. */
  datatype Iteration = Iteration(callbacks: seq<Callback>, opState: OperationState)

  /** Continue: loop again; Finished: bDone; Thrown: the loop throws. */
  datatype Outcome = Continue | Finished | Thrown(error: Error)

  datatype StepResult = StepResult(machine: Machine, request: Option<ListRequest>, outcome: Outcome)

  /** The pending operation each stage has outstanding. */
  function PendingAt(stage: nat): Option<ListRequest> {
    if stage == 0 then None else if stage == 1 then Some(ListSinks) else Some(ListSources)
  }

  /** What holds at the top of every pass of the loop. */
  predicate Inv(m: Machine) {
    m.stage <= 2 && m.pending == PendingAt(m.stage)
  }

  /**
   * One loop pass: iterate the main loop, throw EDEVICE when the context
   * failed, do nothing while it is still connecting, otherwise advance the
   * `state` switch. Stage 0 submits the sink list, stage 1 submits the
   * source list once the sink operation is DONE, stage 2 finishes once the
   * source operation is DONE; any other stage throws EGENERAL.
   */
  function Step(m: Machine, it: Iteration): (r: StepResult)
    ensures var d := DispatchAll(m, it.callbacks);
      && r.machine.sinks == d.sinks && r.machine.sources == d.sources
      && r.machine.ready == d.ready
      && (d.ready == FAILED ==> r == StepResult(d, None, Thrown(DeviceError)))
      && (d.ready == WAITING ==> r == StepResult(d, None, Continue))
      && (r.request == Some(ListSinks) ==> m.stage == 0 && r.machine.stage == 1)
      && (r.request == Some(ListSources) ==>
            m.stage == 1 && it.opState == OpDone && r.machine.stage == 2)
      && (r.outcome == Finished ==> m.stage == 2 && it.opState == OpDone)
      && m.stage <= r.machine.stage <= m.stage + 1
      && (Inv(m) && r.outcome == Continue ==> Inv(r.machine))
      && (Inv(m) ==> r.outcome != Thrown(GeneralError))
  {
    var d := DispatchAll(m, it.callbacks);
    if d.ready == FAILED then StepResult(d, None, Thrown(DeviceError))
    else if d.ready == WAITING then StepResult(d, None, Continue)
    else if d.stage == 0 then
      StepResult(d.(stage := 1, pending := Some(ListSinks)), Some(ListSinks), Continue)
    else if d.stage == 1 then
      if it.opState == OpDone
      then StepResult(d.(stage := 2, pending := Some(ListSources)), Some(ListSources), Continue)
      else StepResult(d, None, Continue)
    else if d.stage == 2 then
      if it.opState == OpDone
      then StepResult(d.(pending := None), None, Finished)
      else StepResult(d, None, Continue)
    else StepResult(d, None, Thrown(GeneralError))
  }

  datatype RunResult = RunResult(machine: Machine, requests: seq<ListRequest>, outcome: Outcome)

  function RequestList(r: Option<ListRequest>): seq<ListRequest> {
    if r.Some? then [r.value] else []
  }

  /**
   * The loop over a finite stretch of the environment: it stops when a pass
   * finishes or throws; Continue means the real loop would still be
   * waiting when the trace ends (it has no timeout).
   */
  function Run(m: Machine, trace: seq<Iteration>): (r: RunResult)
    ensures r.outcome.Thrown? ==> r.outcome.error == DeviceError || r.outcome.error == GeneralError
    decreases |trace|
  {
    if trace == [] then RunResult(m, [], Continue)
    else
      var s := Step(m, trace[0]);
      if s.outcome != Continue then RunResult(s.machine, RequestList(s.request), s.outcome)
      else
        var rest := Run(s.machine, trace[1..]);
        RunResult(rest.machine, RequestList(s.request) + rest.requests, rest.outcome)
  }

  /** A run's result with the requests of the passes before it put in front. */
  function After(requests: seq<ListRequest>, r: RunResult): RunResult {
    RunResult(r.machine, requests + r.requests, r.outcome)
  }

  lemma AfterAfter(a: seq<ListRequest>, b: seq<ListRequest>, r: RunResult)
    ensures After(a, After(b, r)) == After(a + b, r)
  {
    assert a + (b + r.requests) == (a + b) + r.requests;
  }

  /** Run from pass i on, unfolded by one pass. */
  lemma RunFrom(m: Machine, trace: seq<Iteration>, i: nat)
    requires i < |trace|
    ensures var s := Step(m, trace[i]);
      Run(m, trace[i..]) ==
        if s.outcome != Continue then RunResult(s.machine, RequestList(s.request), s.outcome)
        else After(RequestList(s.request), Run(s.machine, trace[i + 1..]))
  {
    assert trace[i..][1..] == trace[i + 1..];
  }

  const PIPELINE: seq<ListRequest> := [ListSinks, ListSources]

  /**
   * The requests go out in pipeline order, each once: a run submits exactly
   * the part of [sinks, sources] between its first and its last stage, and
   * the stage never decreases.
   */
  lemma {:induction false} RunFollowsPipeline(m: Machine, trace: seq<Iteration>)
    requires Inv(m)
    ensures var r := Run(m, trace);
      m.stage <= r.machine.stage <= 2 && r.requests == PIPELINE[m.stage..r.machine.stage]
    decreases |trace|
  {
    if trace != [] {
      var s := Step(m, trace[0]);
      if s.outcome == Continue {
        RunFollowsPipeline(s.machine, trace[1..]);
      }
    }
  }

  /** A run never reaches the "unexpected state" branch. */
  lemma {:induction false} RunNeverUnexpected(m: Machine, trace: seq<Iteration>)
    requires Inv(m)
    ensures Run(m, trace).outcome != Thrown(GeneralError)
    decreases |trace|
  {
    if trace != [] {
      var s := Step(m, trace[0]);
      if s.outcome == Continue {
        RunNeverUnexpected(s.machine, trace[1..]);
      }
    }
  }

  /** InitDevices only returns after both lists were requested. */
  lemma RunFinishesAfterBothLists(sinks: DeviceList, sources: DeviceList, trace: seq<Iteration>)
    ensures Run(Start(sinks, sources), trace).outcome == Finished ==>
      Run(Start(sinks, sources), trace).requests == PIPELINE
  {
    RunFollowsPipeline(Start(sinks, sources), trace);
    FinishedAtLastStage(Start(sinks, sources), trace);
  }

  lemma {:induction false} FinishedAtLastStage(m: Machine, trace: seq<Iteration>)
    ensures Run(m, trace).outcome == Finished ==> Run(m, trace).machine.stage == 2
    decreases |trace|
  {
    if trace != [] {
      var s := Step(m, trace[0]);
      if s.outcome == Continue {
        FinishedAtLastStage(s.machine, trace[1..]);
      }
    }
  }

  /**
   * Operations that never report DONE (still running, or cancelled) stall
   * the loop: it never finishes, and the source list is never requested
   * after the sink list.
   */
  lemma {:induction false} RunStallsWithoutDone(m: Machine, trace: seq<Iteration>)
    requires Inv(m) && m.stage <= 1
    requires forall i :: 0 <= i < |trace| ==> trace[i].opState != OpDone
    ensures Run(m, trace).outcome != Finished
    ensures ListSources !in Run(m, trace).requests
    ensures Run(m, trace).machine.stage <= 1
    decreases |trace|
  {
    if trace != [] {
      var s := Step(m, trace[0]);
      if s.outcome == Continue {
        RunStallsWithoutDone(s.machine, trace[1..]);
      }
    }
  }

  /** Once the context has failed, the next pass throws EDEVICE and submits nothing. */
  lemma RunFailsOnFailedContext(m: Machine, trace: seq<Iteration>)
    requires trace != [] && DispatchAll(m, trace[0].callbacks).ready == FAILED
    ensures Run(m, trace) == RunResult(DispatchAll(m, trace[0].callbacks), [], Thrown(DeviceError))
  {
  }
}
