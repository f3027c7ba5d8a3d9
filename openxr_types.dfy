/** The OpenXR vocabulary the frame-statistics plugin works in: result codes,
    XrTime nanoseconds, nullable function pointers and the frame state that
    xrWaitFrame fills in. */
module OpenXR {

  /** A nullable value: None stands for a C null pointer. */
  datatype Option<+T> = None | Some(value: T)

  /** XrResult is a 32-bit signed enumeration. */
  type Int32 = x: int | -0x8000_0000 <= x < 0x8000_0000

  /** XrTime is a signed 64-bit count of nanoseconds. */
  type XrTime = x: int | -0x8000_0000_0000_0000 <= x < 0x8000_0000_0000_0000

  type XrResult = Int32

  /** The two result codes the plugin names (values from the OpenXR headers). */
  const XR_SUCCESS: XrResult := 0
  const XR_ERROR_FUNCTION_UNSUPPORTED: XrResult := -7

  /** The name of the one entry point the plugin intercepts. */
  const WAIT_FRAME_NAME: string := "xrWaitFrame"

  /** A non-null code address, as stored in a PFN_* pointer. The runtime's own
      functions are opaque addresses; the plugin's two wrappers are told apart
      so that a model can say when they are handed out. */
  datatype ProcAddr =
    | Foreign(addr: nat)
    | WaitFrameThunk
    | GetInstanceProcAddrWrapper

  /** The part of XrFrameState the plugin reads. */
  datatype FrameState = FrameState(predictedDisplayTime: XrTime)

  /** Nanoseconds to seconds, exactly as a real number. */
  function ToSeconds(t: int): (s: real)
    ensures s * 1_000_000_000.0 == t as real
    ensures s >= 0.0 <==> t >= 0
    ensures s == 0.0 <==> t == 0
  {
    t as real / 1_000_000_000.0
  }
}
