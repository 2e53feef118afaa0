/**
 * class PAManager: the device maps, the connection handles and the
 * readiness flag, updated in place by the callbacks, Init, InitDevices and
 * DeInit, and read by the lookups.
 */
module PaManager {
  import opened Wrappers
  import opened PaDevice
  import opened PaRegistry
  import opened PaConnection

  /**
   * The manager as a value. `hasContext` and `hasMainloop` stand for
   * m_pa_context != NULL and m_pa_mainloop != NULL.
   */
  datatype ManagerState = ManagerState(hasContext: bool, hasMainloop: bool, machine: Machine)

  /** PAManager::DeInit: drop both handles and every device. */
  function DeInitSpec(s: ManagerState): (r: ManagerState)
    ensures !r.hasContext && !r.hasMainloop
    ensures r.machine.sinks == map[] && r.machine.sources == map[]
    ensures r.machine.ready == s.machine.ready && r.machine.stage == s.machine.stage
    ensures r.machine.pending == s.machine.pending
  {
    ManagerState(false, false, s.machine.(sinks := map[], sources := map[]))
  }

  datatype InitResult = InitResult(state: ManagerState, requests: seq<ListRequest>, outcome: Outcome)

  /**
   * PAManager::Init. `mainloopOk` says whether pa_mainloop_new and
   * pa_mainloop_get_api succeed, `contextOk` whether pa_context_new does;
   * `trace` is what the server does while InitDevices waits.
   */
  function InitSpec(s: ManagerState, mainloopOk: bool, contextOk: bool, trace: seq<Iteration>): (r: InitResult)
    ensures s.hasContext ==> r == InitResult(s, [], Thrown(AlreadyInitialized))
    ensures !s.hasContext ==> r.outcome != Thrown(AlreadyInitialized)
    ensures !s.hasContext && !mainloopOk ==> r.outcome == Thrown(AssertFailed) && !r.state.hasContext
    ensures !s.hasContext && mainloopOk && !contextOk ==>
      r.outcome == Thrown(DeviceError) && r.state.hasMainloop && !r.state.hasContext
    ensures r.outcome == Finished ==> r.state.hasContext && r.state.hasMainloop && r.requests == PIPELINE
  {
    if s.hasContext then InitResult(s, [], Thrown(AlreadyInitialized))
    else if !mainloopOk then InitResult(s.(hasMainloop := false), [], Thrown(AssertFailed))
    else if !contextOk then InitResult(s.(hasMainloop := true), [], Thrown(DeviceError))
    else
      var run := Run(Start(s.machine.sinks, s.machine.sources), trace);
      RunFinishesAfterBothLists(s.machine.sinks, s.machine.sources, trace);
      RunNeverUnexpected(Start(s.machine.sinks, s.machine.sources), trace);
      InitResult(ManagerState(true, true, run.machine), run.requests, run.outcome)
  }

  /** DeInit is idempotent, and after it Init no longer refuses with EALREADY_INITIALIZED. */
  lemma DeInitThenInit(s: ManagerState, mainloopOk: bool, contextOk: bool, trace: seq<Iteration>)
    ensures DeInitSpec(DeInitSpec(s)) == DeInitSpec(s)
    ensures InitSpec(DeInitSpec(s), mainloopOk, contextOk, trace).outcome != Thrown(AlreadyInitialized)
  {
  }

  /** A successful Init after DeInit lists the devices into empty maps. */
  lemma InitAfterDeInitStartsEmpty(s: ManagerState, trace: seq<Iteration>)
    ensures InitSpec(DeInitSpec(s), true, true, trace).state.machine ==
            Run(Start(map[], map[]), trace).machine
  {
  }

  class Manager {
    var sinks: DeviceList          // m_sinks
    var sources: DeviceList        // m_sources
    var hasContext: bool           // m_pa_context != NULL
    var hasMainloop: bool          // m_pa_mainloop != NULL
    var ready: int                 // m_pa_ready
    var stage: nat                 // InitDevices' `state`
    var pending: Option<ListRequest>   // InitDevices' `pa_op`

    ghost function Current(): Machine
      reads this
    {
      Machine(sinks, sources, ready, stage, pending)
    }

    ghost function State(): ManagerState
      reads this
    {
      ManagerState(hasContext, hasMainloop, Current())
    }

    /** PAManager(): no context, no main loop, no devices. */
    constructor()
      ensures !hasContext && !hasMainloop
      ensures sinks == map[] && sources == map[]
    {
      sinks, sources := map[], map[];
      hasContext, hasMainloop := false, false;
      ready, stage, pending := WAITING, 0, None;
    }

    /** pa_state_cb, whose userdata points at m_pa_ready. */
    method OnContextState(ctx: ContextState)
      modifies this`ready
      ensures ready == StateCallback(old(ready), ctx)
    {
      match ctx
      case Failed | Terminated => ready := FAILED;
      case Ready => ready := READY;
      case _ =>
    }

    /** pa_sinklist_cb, whose userdata points at m_sinks. */
    method OnSinkListed(info: Option<SinkInfo>, eol: int)
      modifies this`sinks
      ensures sinks == ListCallback(old(sinks), if info.Some? then Some(FromSinkInfo(info.value)) else None, eol)
    {
      if eol != 0 || info.None? {
        return;
      }
      var device := FromSinkInfo(info.value);
      sinks := sinks[info.value.index := device];
    }

    /** pa_sourcelist_cb, whose userdata points at m_sources. */
    method OnSourceListed(info: Option<SourceInfo>, eol: int)
      modifies this`sources
      ensures sources == ListCallback(old(sources), if info.Some? then Some(FromSourceInfo(info.value)) else None, eol)
    {
      if eol != 0 || info.None? {
        return;
      }
      var device := FromSourceInfo(info.value);
      sources := sources[info.value.index := device];
    }

    /** One pass of the loop in InitDevices. */
    method Iterate(it: Iteration) returns (request: Option<ListRequest>, outcome: Outcome)
      modifies this
      ensures var r := Step(old(Current()), it);
        Current() == r.machine && request == r.request && outcome == r.outcome
      ensures hasContext == old(hasContext) && hasMainloop == old(hasMainloop)
    {
      // pa_mainloop_iterate: the callbacks PulseAudio runs during this pass
      ghost var before := Current();
      var cbs := it.callbacks;
      for i := 0 to |cbs|
        invariant DispatchAll(Current(), cbs[i..]) == DispatchAll(before, cbs)
        invariant stage == before.stage && pending == before.pending
        invariant hasContext == old(hasContext) && hasMainloop == old(hasMainloop)
      {
        assert cbs[i..][1..] == cbs[i + 1..];
        match cbs[i]
        case ContextChanged(ctx) => OnContextState(ctx);
        case SinkListed(info, eol) => OnSinkListed(info, eol);
        case SourceListed(info, eol) => OnSourceListed(info, eol);
      }
      request, outcome := None, Continue;
      if ready == FAILED {
        outcome := Thrown(DeviceError);
      } else if ready != WAITING {
        if stage == 0 {
          pending, request := Some(ListSinks), Some(ListSinks);
          stage := stage + 1;
        } else if stage == 1 {
          if it.opState == OpDone {
            pending, request := Some(ListSources), Some(ListSources);
            stage := stage + 1;
          }
        } else if stage == 2 {
          if it.opState == OpDone {
            pending, outcome := None, Finished;
          }
        } else {
          outcome := Thrown(GeneralError);
        }
      }
    }

    /**
     * PAManager::InitDevices over a finite stretch of server behaviour;
     * returns the list requests it submitted and how the loop ended.
     */
    method InitDevices(trace: seq<Iteration>) returns (requests: seq<ListRequest>, outcome: Outcome)
      modifies this
      ensures var r := Run(Start(old(sinks), old(sources)), trace);
        Current() == r.machine && requests == r.requests && outcome == r.outcome
      ensures hasContext == old(hasContext) && hasMainloop == old(hasMainloop)
    {
      stage, ready, pending := 0, WAITING, None;
      ghost var start := Current();
      assert start == Start(old(sinks), old(sources));
      requests, outcome := [], Continue;
      var i := 0;
      while i < |trace| && outcome == Continue
        invariant 0 <= i <= |trace|
        invariant outcome == Continue ==> Run(start, trace) == After(requests, Run(Current(), trace[i..]))
        invariant outcome != Continue ==> Run(start, trace) == RunResult(Current(), requests, outcome)
        invariant hasContext == old(hasContext) && hasMainloop == old(hasMainloop)
      {
        ghost var before := requests;
        RunFrom(Current(), trace, i);
        var req, out := Iterate(trace[i]);
        requests := requests + RequestList(req);
        outcome := out;
        i := i + 1;
        if out == Continue {
          AfterAfter(before, RequestList(req), Run(Current(), trace[i..]));
        }
      }
      if outcome == Continue {
        assert trace[i..] == [];
        assert requests + [] == requests;
      }
    }

    /** PAManager::Init. */
    method Init(mainloopOk: bool, contextOk: bool, trace: seq<Iteration>)
      returns (requests: seq<ListRequest>, outcome: Outcome)
      modifies this
      ensures var r := InitSpec(old(State()), mainloopOk, contextOk, trace);
        State() == r.state && requests == r.requests && outcome == r.outcome
    {
      if hasContext {
        return [], Thrown(AlreadyInitialized);
      }
      hasMainloop := mainloopOk;
      if !mainloopOk {
        return [], Thrown(AssertFailed);
      }
      hasContext := contextOk;
      if !contextOk {
        return [], Thrown(DeviceError);
      }
      requests, outcome := InitDevices(trace);
    }

    /** PAManager::DeInit. */
    method DeInit()
      modifies this`hasContext, this`hasMainloop, this`sinks, this`sources
      ensures State() == DeInitSpec(old(State()))
    {
      if hasContext {
        hasContext := false;
      }
      if hasMainloop {
        hasMainloop := false;
      }
      sinks := map[];
      sources := map[];
    }

    /** PAManager::Sink: the stored sink exactly when idx is a key, NULL otherwise. */
    function Sink(idx: u32): (r: Option<Device>)
      reads this
      ensures r.Some? <==> idx in sinks
      ensures r.Some? ==> r.value == sinks[idx]
    {
      Lookup(sinks, idx)
    }

    /** PAManager::Source: the stored source exactly when idx is a key, NULL otherwise. */
    function Source(idx: u32): (r: Option<Device>)
      reads this
      ensures r.Some? <==> idx in sources
      ensures r.Some? ==> r.value == sources[idx]
    {
      Lookup(sources, idx)
    }

    /** PAManager::getSink: the least sink index whose name contains `name`, ignoring case. */
    function GetSink(name: string): (r: u32)
      reads this
      ensures r != NOT_FOUND ==> r in sinks && NameMatches(sinks[r], name)
      ensures forall k :: k in sinks && NameMatches(sinks[k], name) ==> r <= k
      ensures (forall k :: k in sinks ==> !NameMatches(sinks[k], name)) ==> r == NOT_FOUND
    {
      FindFirst(sinks, name)
    }

    /** PAManager::getSource: the least source index whose name contains `name`, ignoring case. */
    function GetSource(name: string): (r: u32)
      reads this
      ensures r != NOT_FOUND ==> r in sources && NameMatches(sources[r], name)
      ensures forall k :: k in sources && NameMatches(sources[k], name) ==> r <= k
      ensures (forall k :: k in sources ==> !NameMatches(sources[k], name)) ==> r == NOT_FOUND
    {
      FindFirst(sources, name)
    }
  }
}
