/**
 * The visualizer's device manager (`audio::Context`): the descriptors the
 * context enumerated once, device creation from a type and per-direction
 * selections, and the four typed wrappers that fix the type, the callback
 * and which selections are passed.
 */
module AudioContext {
  import opened Wrappers
  import opened MachineInts
  import opened Miniaudio
  import opened DeviceConfigs
  import opened AudioData

  /** The context as the core sees it: the device layer and the two descriptor lists read when it was opened. */
  datatype Context = Context(layer: DeviceLayer, playbackInfos: seq<DeviceInfo>, captureInfos: seq<DeviceInfo>)

  /** `Context::format`: every device is opened with 32-bit float samples. */
  const FORMAT: Format := FormatF32

  /**
   * `create_device`: fill the configuration (sample rate from the data
   * configuration) and return the device layer's result for it; an error
   * code is only logged, never altered. Each filled direction's index must
   * name a descriptor (the source asserts it).
   */
  function CreateDevice(ctx: Context, t: DeviceType, dataConfig: DataConfig,
                        playbackConfig: DeviceConfig, captureConfig: DeviceConfig,
                        proc: DataProc, userData: object?): (r: Result<Device, MaResult>)
    requires IndicesInRange(t, ctx.playbackInfos, ctx.captureInfos, playbackConfig, captureConfig)
    ensures r == ctx.layer.init(FillDeviceConfig(t, ctx.playbackInfos, ctx.captureInfos, playbackConfig,
                                                 captureConfig, dataConfig.sampleRate, proc, userData))
  {
    ctx.layer.init(FillDeviceConfig(t, ctx.playbackInfos, ctx.captureInfos, playbackConfig, captureConfig,
                                    dataConfig.sampleRate, proc, userData))
  }

  /** The configuration a playback device is opened with: only the playback section is filled. */
  function CreatePlaybackDevice(ctx: Context, dataConfig: DataConfig, playbackConfig: DeviceConfig, userData: object?): (r: Result<Device, MaResult>)
    requires playbackConfig.index < |ctx.playbackInfos|
    ensures r == ctx.layer.init(DeviceConfigRecord(
      Playback,
      SubConfig(Some(ctx.playbackInfos[playbackConfig.index].id), FORMAT, playbackConfig.channels),
      UNSET, dataConfig.sampleRate, Some(PlaybackProc), userData))
  {
    CreateDevice(ctx, Playback, dataConfig, playbackConfig, EMPTY, PlaybackProc, userData)
  }

  /** The configuration a capture device is opened with: only the capture section is filled. */
  function CreateCaptureDevice(ctx: Context, dataConfig: DataConfig, captureConfig: DeviceConfig, userData: object?): (r: Result<Device, MaResult>)
    requires captureConfig.index < |ctx.captureInfos|
    ensures r == ctx.layer.init(DeviceConfigRecord(
      Capture, UNSET,
      SubConfig(Some(ctx.captureInfos[captureConfig.index].id), FORMAT, captureConfig.channels),
      dataConfig.sampleRate, Some(CaptureProc), userData))
  {
    CreateDevice(ctx, Capture, dataConfig, EMPTY, captureConfig, CaptureProc, userData)
  }

  /** The configuration a duplex device is opened with: both sections, from the two selections in order. */
  function CreateDuplexDevice(ctx: Context, dataConfig: DataConfig, playbackConfig: DeviceConfig,
                              captureConfig: DeviceConfig, userData: object?): (r: Result<Device, MaResult>)
    requires playbackConfig.index < |ctx.playbackInfos| && captureConfig.index < |ctx.captureInfos|
    ensures r == ctx.layer.init(DeviceConfigRecord(
      Duplex,
      SubConfig(Some(ctx.playbackInfos[playbackConfig.index].id), FORMAT, playbackConfig.channels),
      SubConfig(Some(ctx.captureInfos[captureConfig.index].id), FORMAT, captureConfig.channels),
      dataConfig.sampleRate, Some(DuplexProc), userData))
  {
    CreateDevice(ctx, Duplex, dataConfig, playbackConfig, captureConfig, DuplexProc, userData)
  }

  /** The configuration a loopback device is opened with: only the capture section, from a capture descriptor. */
  function CreateLoopbackDevice(ctx: Context, dataConfig: DataConfig, captureConfig: DeviceConfig, userData: object?): (r: Result<Device, MaResult>)
    requires captureConfig.index < |ctx.captureInfos|
    ensures r == ctx.layer.init(DeviceConfigRecord(
      Loopback, UNSET,
      SubConfig(Some(ctx.captureInfos[captureConfig.index].id), FORMAT, captureConfig.channels),
      dataConfig.sampleRate, Some(LoopbackProc), userData))
  {
    CreateDevice(ctx, Loopback, dataConfig, EMPTY, captureConfig, LoopbackProc, userData)
  }
}
