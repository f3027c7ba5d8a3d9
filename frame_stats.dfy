/** The native plugin openxr_frame_stats: a wrapper around the runtime's
    xrGetInstanceProcAddr that substitutes a thunk for xrWaitFrame, the thunk
    that latches predicted display times, the hook-install export and the two
    query exports.

    The process-wide statics are the fields of FrameStatsPlugin. Each function
    that changes the statics (the thunk, the resolver wrapper, the hook) is a
    method proved against a step function on the value Globals; the two queries
    are specified against the ghost history of latched times. The calls the
    plugin makes into the runtime (the stored resolver, the real xrWaitFrame)
    are foreign, so what they return and write is passed in. */
module FrameStats {
  import opened OpenXR
  import opened FrameTiming

  /** The five statics as one value. */
  datatype Globals = Globals(
    nextGipa: Option<ProcAddr>,
    realWaitFrame: Option<ProcAddr>,
    latch: Latch)

  /** The statics at load time: both pointers null, all times 0. */
  const LoadTime: Globals := Globals(None, None, Initial)

  // ---- xrWaitFrame thunk ----

  datatype WaitResult = WaitResult(globals: Globals, result: XrResult)

  /** The thunk latches a sample exactly when a real xrWaitFrame is cached, the
      real call succeeded and the caller passed a frame state. */
  predicate Latches(g: Globals, frameState: Option<FrameState>, realResult: XrResult) {
    g.realWaitFrame.Some? && realResult == XR_SUCCESS && frameState.Some?
  }

  /** One call of the thunk. realResult is what the real xrWaitFrame returns
      and frameState what it left in the caller's frame state (None for a null
      pointer); neither is used when no real function is cached. */
  function StepWaitFrame(g: Globals, frameState: Option<FrameState>, realResult: XrResult): (res: WaitResult)
    ensures g.realWaitFrame == None ==> res == WaitResult(g, XR_ERROR_FUNCTION_UNSUPPORTED)
    ensures g.realWaitFrame != None ==> res.result == realResult
    ensures res.globals.nextGipa == g.nextGipa && res.globals.realWaitFrame == g.realWaitFrame
    ensures !Latches(g, frameState, realResult) ==> res.globals == g
    ensures Latches(g, frameState, realResult) ==>
              var t := frameState.value.predictedDisplayTime;
              && res.globals.latch.prevNs == t
              && res.globals.latch.lastTimeNs == t
              && (Advances(g.latch.prevNs, t) ==> res.globals.latch.lastPeriodNs == t as int - g.latch.prevNs)
              && (!Advances(g.latch.prevNs, t) ==> res.globals.latch.lastPeriodNs == g.latch.lastPeriodNs)
    ensures g.latch.lastPeriodNs >= 0 ==> res.globals.latch.lastPeriodNs >= 0
  {
    if g.realWaitFrame == None then WaitResult(g, XR_ERROR_FUNCTION_UNSUPPORTED)
    else
      var r := realResult;
      if r == XR_SUCCESS && frameState.Some? then
        WaitResult(g.(latch := Capture(g.latch, frameState.value.predictedDisplayTime)), r)
      else WaitResult(g, r)
  }

  /** A thunk call extends the run of latched samples by the new time when it
      latches, and leaves it as it was otherwise. */
  lemma WaitFrameReplay(g: Globals, ts: seq<XrTime>, frameState: Option<FrameState>, realResult: XrResult)
    requires g.latch == Replay(ts)
    ensures Latches(g, frameState, realResult) ==>
              StepWaitFrame(g, frameState, realResult).globals.latch
                == Replay(ts + [frameState.value.predictedDisplayTime])
    ensures !Latches(g, frameState, realResult) ==>
              StepWaitFrame(g, frameState, realResult).globals.latch == Replay(ts)
  {
    if Latches(g, frameState, realResult) {
      ReplaySnoc(ts, frameState.value.predictedDisplayTime);
    }
  }

  // ---- xrGetInstanceProcAddr wrapper ----

  /** The caller's PFN_xrVoidFunction* out-parameter: a null pointer, or a
      pointer to a slot holding a (nullable) function pointer. */
  datatype OutParam = NullOut | Out(fn: Option<ProcAddr>)

  /** What the stored resolver returns, and what it leaves in the slot. */
  datatype Lookup = Lookup(result: XrResult, written: Option<ProcAddr>)

  /** The out-parameter after the stored resolver has run: the abstraction of
      the foreign call's write, not a property of the plugin. */
  function Forwarded(out: OutParam, lookup: Lookup): OutParam
  {
    if out.NullOut? then NullOut else Out(lookup.written)
  }

  datatype ResolveResult = ResolveResult(globals: Globals, out: OutParam, result: XrResult)

  /** One call of the resolver wrapper for the given name. */
  function StepGetInstanceProcAddr(g: Globals, name: string, out: OutParam, lookup: Lookup): (res: ResolveResult)
    // no stored resolver: refuse, touching nothing
    ensures g.nextGipa == None ==> res == ResolveResult(g, out, XR_ERROR_FUNCTION_UNSUPPORTED)
    // a failed lookup, a null out-parameter or a null result is passed back as the resolver left it
    ensures g.nextGipa != None && (lookup.result != XR_SUCCESS || out.NullOut? || lookup.written == None) ==>
              res == ResolveResult(g, Forwarded(out, lookup), lookup.result)
    // every other name is forwarded transparently
    ensures g.nextGipa != None && name != WAIT_FRAME_NAME ==>
              res == ResolveResult(g, Forwarded(out, lookup), lookup.result)
    // a successful lookup of xrWaitFrame caches the real pointer and hands out the thunk
    ensures g.nextGipa != None && name == WAIT_FRAME_NAME && lookup.result == XR_SUCCESS
            && out.Out? && lookup.written != None ==>
              res == ResolveResult(g.(realWaitFrame := lookup.written), Out(Some(WaitFrameThunk)), XR_SUCCESS)
    // only the cached xrWaitFrame can change, and only to what the resolver produced
    ensures res.globals.nextGipa == g.nextGipa && res.globals.latch == g.latch
    ensures res.globals.realWaitFrame != g.realWaitFrame ==>
              name == WAIT_FRAME_NAME && res.globals.realWaitFrame == lookup.written
    // the thunk is never cached as the real function unless the resolver itself returned it
    ensures g.realWaitFrame != Some(WaitFrameThunk) && lookup.written != Some(WaitFrameThunk) ==>
              res.globals.realWaitFrame != Some(WaitFrameThunk)
  {
    if g.nextGipa == None then ResolveResult(g, out, XR_ERROR_FUNCTION_UNSUPPORTED)
    else
      var r := lookup.result;
      var after := Forwarded(out, lookup);
      if r != XR_SUCCESS || after.NullOut? || after.fn == None then ResolveResult(g, after, r)
      else if name == WAIT_FRAME_NAME then
        ResolveResult(g.(realWaitFrame := after.fn), Out(Some(WaitFrameThunk)), XR_SUCCESS)
      else ResolveResult(g, after, XR_SUCCESS)
  }

  /** Resolving a name a second time with the same lookup outcome changes
      nothing more: no second thunk is wrapped around the first. */
  lemma ResolveIdempotent(g: Globals, name: string, out: OutParam, lookup: Lookup)
    ensures var once := StepGetInstanceProcAddr(g, name, out, lookup);
            StepGetInstanceProcAddr(once.globals, name, out, lookup) == once
  {
  }

  // ---- fm_hook_get_instance_proc_addr ----

  datatype HookResult = HookResult(globals: Globals, returned: Option<ProcAddr>)

  /** Installing the hook stores the original resolver and returns the
      wrapper, or returns null when the original is null. */
  function StepHook(g: Globals, original: Option<ProcAddr>): (res: HookResult)
    ensures res.globals == g.(nextGipa := original)
    ensures original == None ==> res.returned == None
    ensures original != None ==> res.returned == Some(GetInstanceProcAddrWrapper)
  {
    var g' := g.(nextGipa := original);
    if g'.nextGipa == None then HookResult(g', original)
    else HookResult(g', Some(GetInstanceProcAddrWrapper))
  }

  /** Installing twice with the same original is the same as installing once. */
  lemma HookIdempotent(g: Globals, original: Option<ProcAddr>)
    ensures StepHook(StepHook(g, original).globals, original) == StepHook(g, original)
  {
  }

  // ---- The statics and the exports ----

  /** The caller's out-parameter slot for a resolved function pointer. */
  class ProcSlot {
    var fn: Option<ProcAddr>

    constructor (fn: Option<ProcAddr>)
      ensures this.fn == fn
    {
      this.fn := fn;
    }
  }

  /** The caller's out-pointer as a value: null, or the slot's contents. */
  function OutOf(slot: ProcSlot?): OutParam
    reads slot
  {
    if slot == null then NullOut else Out(slot.fn)
  }

  /** The plugin's process-wide state. Captured is the run of predicted display
      times latched so far; the timing statics always equal its replay. */
  class FrameStatsPlugin {
    var nextGipa: Option<ProcAddr>
    var realWaitFrame: Option<ProcAddr>
    var prevNs: XrTime
    var lastPeriodNs: int
    var lastTimeNs: XrTime
    ghost var Captured: seq<XrTime>

    function Snapshot(): Globals
      reads this
    {
      Globals(nextGipa, realWaitFrame, Latch(prevNs, lastPeriodNs, lastTimeNs))
    }

    ghost predicate Valid()
      reads this
    {
      Snapshot().latch == Replay(Captured)
    }

    /** The static initialisers. */
    constructor ()
      ensures Valid() && Snapshot() == LoadTime && Captured == []
    {
      nextGipa, realWaitFrame := None, None;
      prevNs, lastPeriodNs, lastTimeNs := 0, 0, 0;
      Captured := [];
    }

    /** Fm_xrWaitFrame: the real call happens first; its result and the frame
        state it wrote are the parameters. */
    method WaitFrame(frameState: Option<FrameState>, realResult: XrResult) returns (r: XrResult)
      requires Valid()
      modifies this
      ensures Valid()
      ensures WaitResult(Snapshot(), r) == StepWaitFrame(old(Snapshot()), frameState, realResult)
      ensures Captured == if Latches(old(Snapshot()), frameState, realResult)
                          then old(Captured) + [frameState.value.predictedDisplayTime]
                          else old(Captured)
    {
      if realWaitFrame == None {
        return XR_ERROR_FUNCTION_UNSUPPORTED;
      }
      r := realResult;
      if r == XR_SUCCESS && frameState.Some? {
        var t := frameState.value.predictedDisplayTime;
        if prevNs != 0 {
          var delta := t as int - prevNs;
          if delta > 0 {
            lastPeriodNs := delta;
          }
        }
        prevNs := t;
        lastTimeNs := t;
        ReplaySnoc(Captured, t);
        Captured := Captured + [t];
      }
    }

    /** Fm_xrGetInstanceProcAddr: the stored resolver runs first, with lookup
        standing for what it returns and writes into the slot. */
    method GetInstanceProcAddr(name: string, slot: ProcSlot?, lookup: Lookup) returns (r: XrResult)
      requires Valid()
      modifies this, slot
      ensures Valid() && Captured == old(Captured)
      ensures ResolveResult(Snapshot(), OutOf(slot), r)
                == StepGetInstanceProcAddr(old(Snapshot()), name, old(OutOf(slot)), lookup)
    {
      if nextGipa == None {
        return XR_ERROR_FUNCTION_UNSUPPORTED;
      }
      if slot != null {
        slot.fn := lookup.written;
      }
      r := lookup.result;
      if r != XR_SUCCESS || slot == null || slot.fn == None {
        return;
      }
      if name == WAIT_FRAME_NAME {
        realWaitFrame := slot.fn;
        slot.fn := Some(WaitFrameThunk);
      }
      r := XR_SUCCESS;
    }

    /** fm_hook_get_instance_proc_addr. */
    method HookGetInstanceProcAddr(original: Option<ProcAddr>) returns (r: Option<ProcAddr>)
      requires Valid()
      modifies this
      ensures Valid() && Captured == old(Captured)
      ensures HookResult(Snapshot(), r) == StepHook(old(Snapshot()), original)
    {
      nextGipa := original;
      if nextGipa == None {
        return original;
      }
      r := Some(GetInstanceProcAddrWrapper);
    }

    /** fm_get_last_frame_period_seconds: the delta of the last sample that
        advanced time over a nonzero predecessor, or 0 if none did. */
    method GetLastFramePeriodSeconds() returns (s: real)
      requires Valid()
      ensures s >= 0.0
      ensures QuietFrom(Captured, 1) ==> s == 0.0
      ensures forall j :: 1 <= j < |Captured| && AdvancesAt(Captured, j) && QuietFrom(Captured, j + 1) ==>
                s == ToSeconds(Captured[j] as int - Captured[j - 1])
    {
      ReplayPeriod(Captured);
      s := ToSeconds(lastPeriodNs);
    }

    /** fm_get_last_frame_time_seconds: the last latched predicted display
        time, or 0 before the first. */
    method GetLastFrameTimeSeconds() returns (s: real)
      requires Valid()
      ensures Captured == [] ==> s == 0.0
      ensures Captured != [] ==> s == ToSeconds(Captured[|Captured| - 1])
    {
      s := ToSeconds(lastTimeNs);
    }
  }

  /** The order in which the engine drives the plugin: install the hook,
      resolve xrWaitFrame through the wrapper, wait four frames (the second
      one failing), then query. The failed wait latches nothing; the sample at
      the sentinel time 0 gives no period to the next. */
  method SessionScenario() returns (hooked: Option<ProcAddr>, waitFrame: Option<ProcAddr>, period: real, time: real)
    ensures hooked == Some(GetInstanceProcAddrWrapper)
    ensures waitFrame == Some(WaitFrameThunk)
    ensures period == ToSeconds(11_100_000) && time == ToSeconds(33_300_000)
  {
    var plugin := new FrameStatsPlugin();
    hooked := plugin.HookGetInstanceProcAddr(Some(Foreign(1)));
    var slot := new ProcSlot(None);
    var r := plugin.GetInstanceProcAddr(WAIT_FRAME_NAME, slot, Lookup(XR_SUCCESS, Some(Foreign(2))));
    waitFrame := slot.fn;
    r := plugin.WaitFrame(Some(FrameState(0)), XR_SUCCESS);
    r := plugin.WaitFrame(Some(FrameState(5_000_000)), -1);
    r := plugin.WaitFrame(Some(FrameState(22_200_000)), XR_SUCCESS);
    r := plugin.WaitFrame(Some(FrameState(33_300_000)), XR_SUCCESS);
    period := plugin.GetLastFramePeriodSeconds();
    time := plugin.GetLastFrameTimeSeconds();
  }
}
