/**
 * The part of miniaudio's interface the core relies on: device types with
 * their bit encoding, sample formats, result codes, device descriptors and
 * configuration records, and the device layer's operations as opaque
 * functions. None of miniaudio itself is modelled.
 */
module Miniaudio {
  import opened Wrappers
  import opened MachineInts

  /** `ma_device_type`, with miniaudio's encoding: playback 1, capture 2, duplex 3, loopback 4. */
  datatype DeviceType = Playback | Capture | Duplex | Loopback {
    function Code(): bv8 {
      match this
      case Playback => 1
      case Capture => 2
      case Duplex => 3
      case Loopback => 4
    }
  }

  const PLAYBACK_BIT: bv8 := 1
  const CAPTURE_BIT: bv8 := 2

  /** The test `device_type & bit`. */
  predicate HasBit(t: DeviceType, bit: bv8) {
    t.Code() & bit != 0
  }

  /** Duplex is playback and capture at once; loopback carries neither bit. */
  lemma BitsOfTypes(t: DeviceType)
    ensures HasBit(t, PLAYBACK_BIT) <==> t == Playback || t == Duplex
    ensures HasBit(t, CAPTURE_BIT) <==> t == Capture || t == Duplex
  {
  }

  /** `ma_format`: only the unset value and 32-bit float occur here. */
  datatype Format = FormatUnknown | FormatF32

  /** `ma_result`. */
  type MaResult = int
  const MA_SUCCESS: MaResult := 0
  const MA_DEVICE_TYPE_NOT_SUPPORTED: MaResult := -201

  /** `ma_device_id`, opaque. */
  type DeviceId = nat

  /** `ma_device_info`: a descriptor of one device the context enumerated. */
  datatype DeviceInfo = DeviceInfo(id: DeviceId, name: string)

  /** The data callbacks the context wrappers install (`ma_device_data_proc`), one per device type. */
  datatype DataProc = PlaybackProc | CaptureProc | DuplexProc | LoopbackProc

  /** One direction of a device configuration: which device (`pDeviceID`), sample format and channel count. */
  datatype SubConfig = SubConfig(deviceId: Option<DeviceId>, format: Format, channels: u32)

  /** A direction `ma_device_config_init` leaves untouched: no device, unknown format, no channels. */
  const UNSET: SubConfig := SubConfig(None, FormatUnknown, 0)

  /** `ma_device_config`, reduced to the fields the core sets. */
  datatype DeviceConfigRecord = DeviceConfigRecord(
    deviceType: DeviceType,
    playback: SubConfig,
    capture: SubConfig,
    sampleRate: u32,
    dataCallback: Option<DataProc>,
    userData: object?)

  /** `ma_device_config_init(type)`: the type set, everything else zero. */
  function DeviceConfigInit(t: DeviceType): (c: DeviceConfigRecord)
    ensures c.deviceType == t && c.playback == UNSET && c.capture == UNSET
    ensures c.sampleRate == 0 && c.dataCallback == None && c.userData == null
  {
    DeviceConfigRecord(t, UNSET, UNSET, 0, None, null)
  }

  /** An initialised device (`ma::device_uptr`), known by an opaque handle. */
  datatype Device = Device(handle: nat)

  /**
   * The device layer: `ma::device_init` and `ma::device_start`, each a
   * result the core cannot inspect beyond success or an error code.
   */
  datatype DeviceLayer = DeviceLayer(
    init: DeviceConfigRecord -> Result<Device, MaResult>,
    start: Device -> Result<Unit, MaResult>)

  /** A `defer` guard whose release stops `device`: "the device is running". */
  datatype RunningGuard = RunningGuard(device: Device)
}
