# openxr_frame_stats in Dafny

A model of the native plugin `openxr_frame_stats`. It sits in the OpenXR loader path and measures
the frame delivery interval from the predicted display times the runtime reports:

- `fm_hook_get_instance_proc_addr` stores the runtime's `xrGetInstanceProcAddr`. It hands back its
  own wrapper resolver, or hands back null when the original is null.
- The wrapper `Fm_xrGetInstanceProcAddr` forwards every lookup to the stored resolver. For the name
  `xrWaitFrame` only, it caches the real function and puts its thunk into the caller's out-pointer.
- The thunk `Fm_xrWaitFrame` calls the real `xrWaitFrame` first. After a successful call with a
  non-null frame state, it latches the predicted display time. It replaces the frame period only
  when there is a previous sample (a nonzero previous time) and the delta is positive.
- `fm_get_last_frame_period_seconds` and `fm_get_last_frame_time_seconds` return the latched
  values, converted to seconds.

Files:

- `openxr_types.dfy` (module `OpenXR`): result codes, `XrTime`, nullable function pointers
  (`Option<ProcAddr>`) and the nanosecond-to-second conversion.
- `frame_timing.dfy` (module `FrameTiming`): the timing rule on values.
  - `Capture` is one latch.
  - `Replay` is the latch after a whole run of samples.
  - `ReplayPeriod` states, without the step-by-step rule, which period a run leaves: the delta of
    its last advancing step, or 0.
- `frame_stats.dfy` (module `FrameStats`): the plugin's statics as the class `FrameStatsPlugin`,
  whose five fields are the five statics. Each function that changes the statics (the thunk
  `Fm_xrWaitFrame`, the resolver wrapper `Fm_xrGetInstanceProcAddr` and the export
  `fm_hook_get_instance_proc_addr`) is a method proved against a step function on the value
  `Globals`. A ghost history `Captured` records the latched times, and the two query exports are
  specified against it. The invariant `Valid()` says that the timing statics are always the
  `Replay` of that history.

The runtime functions the plugin calls through its pointers are foreign. What they return and
write is passed to the methods as inputs:

- `realResult` and `frameState` are the real `xrWaitFrame`'s result code and the frame state it
  left behind.
- `Lookup` is the stored resolver's result code and the value it wrote into the out-slot.
- `FrameStats.Forwarded` is the abstraction of that write: after the forwarded call the out-slot
  holds what the stored resolver wrote, and a null out-pointer stays null. It is a modelling
  input, not a property of the plugin.
- `FrameStats.OutOf` is the abstraction of the caller's `PFN_xrVoidFunction* function`
  out-pointer as a value: null, or the contents of the slot it points to. The `!function` test at
  `native/openxr_frame_stats.c:74` reads it.

`XR_SUCCESS` is 0 and `XR_ERROR_FUNCTION_UNSUPPORTED` is -7, as in the OpenXR headers.

What the code does with the timing values:

- On a zero or negative delta the code keeps the previous period. It does not clamp it to zero.
  The comment at `native/openxr_frame_stats.c:53` calls such deltas bogus and ignores them.
- The code treats a previous time of exactly 0 as "no previous sample". So the sample after a
  sample at time 0 yields no period.
- The time is captured after the real call, from the value that call wrote into the frame state.
- So the period is the delta of the last sample that advanced over its nonzero predecessor. The
  comments at `native/openxr_frame_stats.c:101` and `unity/OpenXRFrameMetricsFeature.cs:55`
  describe the interval between the last two latched frames. The code's value is not necessarily
  that interval.
- `FrameTiming.RegressionScenario` works the run 0, 11.1 ms, 22.2 ms, 11.1 ms. It gives the periods
  0, 0, 11.1 ms, 11.1 ms.

## Model

| member | source | states |
|---|---|---|
| OpenXR.ToSeconds | native/openxr_frame_stats.c:28-32 | the seconds value times 1e9 gives back the nanoseconds; it is nonnegative exactly when the time is, and zero exactly when the time is |
| FrameTiming.Capture | native/openxr_frame_stats.c:48-61 | after a latch of t, the previous time and the last time both equal t; the period becomes t - prev when prev is nonzero and t - prev > 0, and otherwise keeps its old value; a nonnegative period stays nonnegative |
| FrameTiming.Replay | native/openxr_frame_stats.c:24-26 | from load time, any run of latches keeps the previous time equal to the last time and the period nonnegative; the empty run is all zeros, and a nonempty run's last time is its last sample |
| FrameTiming.QuietPeriod | native/openxr_frame_stats.c:50-58 | a run in which no step had a nonzero predecessor and a positive delta leaves the period at 0 |
| FrameTiming.LastAdvancePeriod | native/openxr_frame_stats.c:50-58 | a run whose last advancing step is j leaves the period equal to that step's delta, whatever regressions follow |
| FrameTiming.ReplayPeriod | native/openxr_frame_stats.c:50-61 | the period after any run is the delta of its last advancing step, or 0 if no step advanced |
| FrameTiming.SteadyPeriod | native/openxr_frame_stats.c:50-58 | after two or more samples: when the second-to-last sample is nonzero and the last is later than it, the period is the last frame-to-frame delta; otherwise it is the period of the run one sample shorter |
| FrameTiming.RegressionKeepsPeriod | native/openxr_frame_stats.c:52-57 | a sample at or before the previous one keeps the period and still moves the latched time to the new sample |
| FrameTiming.RegressionScenario | native/openxr_frame_stats.c:46-61 | the run 0, 11.1 ms, 22.2 ms, 11.1 ms latches the periods 0, 0, 11.1 ms, 11.1 ms and the times 0, 11.1 ms, 22.2 ms, 11.1 ms |
| FrameStats.StepWaitFrame | native/openxr_frame_stats.c:36-65 | with no cached xrWaitFrame the thunk returns XR_ERROR_FUNCTION_UNSUPPORTED and changes nothing; otherwise it returns the real call's result; it changes no state unless the result is XR_SUCCESS and the frame state is non-null, and then it latches the new time with the guarded period update; it never touches the pointers, and it keeps the period nonnegative |
| FrameStats.WaitFrameReplay | native/openxr_frame_stats.c:44-62 | a thunk call extends the run of latched samples by the new time exactly when it latches, and leaves the latch as it was otherwise |
| FrameStats.StepGetInstanceProcAddr | native/openxr_frame_stats.c:68-85 | with no stored resolver the wrapper returns XR_ERROR_FUNCTION_UNSUPPORTED and leaves the slot unchanged; a failed lookup, a null out-pointer or a null result is returned as the resolver left it; any name other than xrWaitFrame is forwarded transparently; a successful lookup of xrWaitFrame caches the real pointer, hands out the thunk and returns XR_SUCCESS; only the cached xrWaitFrame can change, and the thunk is never cached unless the resolver itself returned it |
| FrameStats.ResolveIdempotent | native/openxr_frame_stats.c:77-82 | resolving the same name again with the same lookup outcome leaves the same state and out-slot as resolving it once, so no thunk is wrapped around a thunk |
| FrameStats.StepHook | native/openxr_frame_stats.c:90-99 | installing the hook stores the original resolver and touches nothing else; it returns the wrapper for a non-null original and null for a null one |
| FrameStats.HookIdempotent | native/openxr_frame_stats.c:90-99 | installing twice with the same original leaves the same state and return value as installing once |
| FrameStats.FrameStatsPlugin.constructor | native/openxr_frame_stats.c:17-26 | at load time both pointers are null, all times are 0 and nothing has been latched |
| FrameStats.FrameStatsPlugin.WaitFrame | native/openxr_frame_stats.c:36-65 | updates the statics and returns exactly what StepWaitFrame prescribes, and appends the new time to the latched history exactly when it latches |
| FrameStats.FrameStatsPlugin.GetInstanceProcAddr | native/openxr_frame_stats.c:68-85 | updates the cached xrWaitFrame and the caller's out-slot in place, and returns exactly what StepGetInstanceProcAddr prescribes; the timing history is unchanged |
| FrameStats.FrameStatsPlugin.HookGetInstanceProcAddr | native/openxr_frame_stats.c:90-99 | stores the original resolver and returns exactly what StepHook prescribes; the timing history is unchanged |
| FrameStats.FrameStatsPlugin.GetLastFramePeriodSeconds | native/openxr_frame_stats.c:101-105 | the period in seconds is never negative; it is 0 before any sample advanced, and otherwise it is the delta of the last latched sample that advanced over a nonzero predecessor |
| FrameStats.FrameStatsPlugin.GetLastFrameTimeSeconds | native/openxr_frame_stats.c:107-111 | 0 before the first latch, and otherwise the last latched predicted display time in seconds |
| FrameStats.SessionScenario | native/openxr_frame_stats.c:36-111 | hook, resolve xrWaitFrame and four waits, one of them failing, give the wrapper, the thunk, a period of 11.1 ms and a time of 33.3 ms |

## Left out

- `unity/OpenXRFrameMetricsFeature.cs` is engine glue and is not part of this model. That covers
  feature registration, the `DllImport` bindings, platform gating, `OnEnable`/`OnDisable` and the
  `float` casts and division in `FrameDeliveryRate`.
- OpenXR.ToSeconds: the source divides a `double` by 1e9. The model divides exactly as a real,
  so double rounding is not modelled. The statics keep nanoseconds, and the query exports convert
  them when read. This is equivalent because the source converts a value that is already latched,
  by a fixed conversion.
- FrameStats.FrameStatsPlugin.WaitFrame: `t - g_prevPredictedDisplayTime` is computed exactly. A
  signed 64-bit overflow on extreme times is not modelled (it is undefined behaviour in C).
- Calls through the runtime's function pointers are not modelled. So are the `instance`,
  `session` and `frameWaitInfo` handles, which the plugin forwards unchanged. These calls are
  foreign, so their outcomes are method inputs.
- `strcmp` on a null name is not modelled. The name is always a string.
- Concurrency between the thread running the thunk and the thread polling the queries is not
  modelled. The source has no synchronisation.
- The export macro and the JNI and OpenXR includes are build plumbing.
- Hooking with the plugin's own wrapper as the original is not modelled. Resolver pointers passed
  to the hook are opaque values, and what a stored resolver does is a `Lookup` input.
