/**
 * The prototype's device manager (`sa::AudioContext`): the same bitmask
 * filling as the visualizer's, but with the sample rate fixed at 48000 Hz,
 * plus the guard that keeps a started device running until it is released.
 */
module SaAudioContext {
  import opened Wrappers
  import opened MachineInts
  import opened Miniaudio
  import opened DeviceConfigs

  datatype AudioContext = AudioContext(layer: DeviceLayer, playbackInfos: seq<DeviceInfo>, captureInfos: seq<DeviceInfo>)

  /** Every device the prototype opens runs at this rate, whatever the caller wants. */
  const DEVICE_SAMPLE_RATE: u32 := 48000

  /**
   * `make_running_device_guard`: start the device; a failed start is
   * returned as its error with no guard, a successful one as a guard that
   * stops this device when released.
   */
  function MakeRunningDeviceGuard(layer: DeviceLayer, device: Device): (r: Result<RunningGuard, MaResult>)
    ensures r.Failure? <==> layer.start(device).Failure?
    ensures r.Failure? ==> r.error == layer.start(device).error
    ensures r.Success? ==> r.value.device == device
  {
    match layer.start(device)
    case Success(_) => Success(RunningGuard(device))
    case Failure(e) => Failure(e)
  }

  /**
   * `create_device`: fill the configuration, always at 48000 Hz and f32,
   * and return the device layer's result unchanged (an error is only logged).
   */
  function CreateDevice(ctx: AudioContext, t: DeviceType, playbackConfig: DeviceConfig, captureConfig: DeviceConfig,
                        proc: DataProc, userData: object?): (r: Result<Device, MaResult>)
    requires IndicesInRange(t, ctx.playbackInfos, ctx.captureInfos, playbackConfig, captureConfig)
    ensures r == ctx.layer.init(FillDeviceConfig(t, ctx.playbackInfos, ctx.captureInfos, playbackConfig,
                                                 captureConfig, DEVICE_SAMPLE_RATE, proc, userData))
  {
    ctx.layer.init(FillDeviceConfig(t, ctx.playbackInfos, ctx.captureInfos, playbackConfig, captureConfig,
                                    DEVICE_SAMPLE_RATE, proc, userData))
  }

  /** Whatever the device type, every configuration handed to the device layer asks for 48000 Hz. */
  lemma SampleRateIsFixed(ctx: AudioContext, t: DeviceType, playbackConfig: DeviceConfig, captureConfig: DeviceConfig,
                          proc: DataProc, userData: object?)
    requires IndicesInRange(t, ctx.playbackInfos, ctx.captureInfos, playbackConfig, captureConfig)
    ensures var c := FillDeviceConfig(t, ctx.playbackInfos, ctx.captureInfos, playbackConfig, captureConfig,
                                      DEVICE_SAMPLE_RATE, proc, userData);
      c.sampleRate == 48000 && (c.playback.deviceId.Some? ==> c.playback.format == FormatF32)
      && (c.capture.deviceId.Some? ==> c.capture.format == FormatF32)
  {
  }

  function CreatePlaybackDevice(ctx: AudioContext, playbackConfig: DeviceConfig, userData: object?): (r: Result<Device, MaResult>)
    requires playbackConfig.index < |ctx.playbackInfos|
    ensures r == ctx.layer.init(DeviceConfigRecord(
      Playback,
      SubConfig(Some(ctx.playbackInfos[playbackConfig.index].id), FormatF32, playbackConfig.channels),
      UNSET, DEVICE_SAMPLE_RATE, Some(PlaybackProc), userData))
  {
    CreateDevice(ctx, Playback, playbackConfig, EMPTY, PlaybackProc, userData)
  }

  function CreateCaptureDevice(ctx: AudioContext, captureConfig: DeviceConfig, userData: object?): (r: Result<Device, MaResult>)
    requires captureConfig.index < |ctx.captureInfos|
    ensures r == ctx.layer.init(DeviceConfigRecord(
      Capture, UNSET,
      SubConfig(Some(ctx.captureInfos[captureConfig.index].id), FormatF32, captureConfig.channels),
      DEVICE_SAMPLE_RATE, Some(CaptureProc), userData))
  {
    CreateDevice(ctx, Capture, EMPTY, captureConfig, CaptureProc, userData)
  }

  function CreateDuplexDevice(ctx: AudioContext, playbackConfig: DeviceConfig, captureConfig: DeviceConfig,
                              userData: object?): (r: Result<Device, MaResult>)
    requires playbackConfig.index < |ctx.playbackInfos| && captureConfig.index < |ctx.captureInfos|
    ensures r == ctx.layer.init(DeviceConfigRecord(
      Duplex,
      SubConfig(Some(ctx.playbackInfos[playbackConfig.index].id), FormatF32, playbackConfig.channels),
      SubConfig(Some(ctx.captureInfos[captureConfig.index].id), FormatF32, captureConfig.channels),
      DEVICE_SAMPLE_RATE, Some(DuplexProc), userData))
  {
    CreateDevice(ctx, Duplex, playbackConfig, captureConfig, DuplexProc, userData)
  }

  function CreateLoopbackDevice(ctx: AudioContext, captureConfig: DeviceConfig, userData: object?): (r: Result<Device, MaResult>)
    requires captureConfig.index < |ctx.captureInfos|
    ensures r == ctx.layer.init(DeviceConfigRecord(
      Loopback, UNSET,
      SubConfig(Some(ctx.captureInfos[captureConfig.index].id), FormatF32, captureConfig.channels),
      DEVICE_SAMPLE_RATE, Some(LoopbackProc), userData))
  {
    CreateDevice(ctx, Loopback, EMPTY, captureConfig, LoopbackProc, userData)
  }
}
