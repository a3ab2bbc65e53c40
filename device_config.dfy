/**
 * What both device contexts share: the per-direction device selection the
 * callers pass (`audio::DeviceConfig`, `sa::AudioDeviceConfig`), the
 * filling of a device configuration by the bitmask test on the device
 * type, and the spans each installed data callback hands to the callable.
 */
module DeviceConfigs {
  import opened Wrappers
  import opened MachineInts
  import opened Miniaudio

  /** Which enumerated device to open in one direction, and with how many channels. */
  datatype DeviceConfig = DeviceConfig(index: u64, channels: u32)

  /** The value-initialised `{}` the wrappers pass for a direction they do not use. */
  const EMPTY: DeviceConfig := DeviceConfig(0, 0)

  /** The capture section is filled for the capture bit, and also for loopback. */
  predicate FillsCapture(t: DeviceType) {
    HasBit(t, CAPTURE_BIT) || t == Loopback
  }

  /** The descriptor index of every direction that will be filled names an existing descriptor. */
  predicate IndicesInRange(t: DeviceType, playbackInfos: seq<DeviceInfo>, captureInfos: seq<DeviceInfo>,
                           playbackConfig: DeviceConfig, captureConfig: DeviceConfig)
  {
    && (HasBit(t, PLAYBACK_BIT) ==> playbackConfig.index < |playbackInfos|)
    && (FillsCapture(t) ==> captureConfig.index < |captureInfos|)
  }

  /**
   * The body of `create_device` up to the call into the device layer:
   * start from `ma_device_config_init(type)`, fill the playback section for
   * the playback bit and the capture section for the capture bit or
   * loopback, each from the chosen descriptor with f32 samples, then set
   * the sample rate, the callback and the user data.
   */
  function FillDeviceConfig(t: DeviceType, playbackInfos: seq<DeviceInfo>, captureInfos: seq<DeviceInfo>,
                            playbackConfig: DeviceConfig, captureConfig: DeviceConfig,
                            sampleRate: u32, proc: DataProc, userData: object?): (c: DeviceConfigRecord)
    requires IndicesInRange(t, playbackInfos, captureInfos, playbackConfig, captureConfig)
    ensures c.deviceType == t && c.sampleRate == sampleRate
    ensures c.dataCallback == Some(proc) && c.userData == userData
    ensures c.playback.deviceId.Some? <==> t == Playback || t == Duplex
    ensures c.capture.deviceId.Some? <==> t == Capture || t == Duplex || t == Loopback
    ensures c.playback.deviceId.Some? ==>
      c.playback == SubConfig(Some(playbackInfos[playbackConfig.index].id), FormatF32, playbackConfig.channels)
    ensures c.capture.deviceId.Some? ==>
      c.capture == SubConfig(Some(captureInfos[captureConfig.index].id), FormatF32, captureConfig.channels)
    ensures c.playback.deviceId.None? ==> c.playback == UNSET
    ensures c.capture.deviceId.None? ==> c.capture == UNSET
  {
    BitsOfTypes(t);
    var c0 := DeviceConfigInit(t);
    var c1 := if HasBit(t, PLAYBACK_BIT) then
        c0.(playback := SubConfig(Some(playbackInfos[playbackConfig.index].id), FormatF32, playbackConfig.channels))
      else c0;
    var c2 := if FillsCapture(t) then
        c1.(capture := SubConfig(Some(captureInfos[captureConfig.index].id), FormatF32, captureConfig.channels))
      else c1;
    c2.(sampleRate := sampleRate, dataCallback := Some(proc), userData := userData)
  }

  /** A span the data callback passes to the callable: the output buffer or the input buffer, with its length. */
  datatype Span = OutputSpan(length: nat) | InputSpan(length: nat)

  /**
   * The spans each installed data callback builds from the driver's
   * buffers: `frame_count * channels` samples of the matching direction,
   * computed in `ma_uint32` arithmetic; duplex passes the output span first.
   */
  function SpanArgs(proc: DataProc, frameCount: u32, playbackChannels: u32, captureChannels: u32): (spans: seq<Span>)
    ensures |spans| == (if proc == DuplexProc then 2 else 1)
    ensures proc == PlaybackProc || proc == DuplexProc <==> spans[0].OutputSpan?
    ensures forall k :: 0 <= k < |spans| && spans[k].OutputSpan? ==>
      frameCount * playbackChannels < TWO_TO_32 ==> spans[k].length == frameCount * playbackChannels
    ensures forall k :: 0 <= k < |spans| && spans[k].InputSpan? ==>
      frameCount * captureChannels < TWO_TO_32 ==> spans[k].length == frameCount * captureChannels
    ensures proc == DuplexProc ==> spans[1].InputSpan?
  {
    match proc
    case PlaybackProc => [OutputSpan(MulU32(frameCount, playbackChannels))]
    case CaptureProc => [InputSpan(MulU32(frameCount, captureChannels))]
    case DuplexProc => [OutputSpan(MulU32(frameCount, playbackChannels)), InputSpan(MulU32(frameCount, captureChannels))]
    case LoopbackProc => [InputSpan(MulU32(frameCount, captureChannels))]
  }
}
