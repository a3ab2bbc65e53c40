/**
 * The visualizer's audio entity (`visualizer::AudioState`) and its two
 * per-tick updates: `audio_update_process`, which drains whole frames from
 * the data callback, keeps channel 0 of the last one and turns it into the
 * normalised half spectrum the renderer shows, and `audio_update_device`,
 * which reacts to the device-type and capture-source controls by replacing
 * the capture device. The floating-point maths and the FFT are parameters.
 */
module Visualizer {
  import opened Wrappers
  import opened MachineInts
  import opened DirtyCell
  import opened Framing
  import opened Miniaudio
  import opened DeviceConfigs
  import opened AudioData
  import opened AudioContext

  /**
   * The numeric steps the update uses, left uninterpreted: a float sample
   * `S` widened to a complex value `Z`, the FFT, `std::abs` to a real `R`,
   * `std::log`, division, and the log of a length converted to float.
   */
  datatype Numerics<!S, !Z, !R> = Numerics(
    toComplex: S -> Z,
    fft: seq<Z> -> seq<Z>,
    abs: Z -> R,
    log: R -> R,
    div: (R, R) -> R,
    logOfSize: nat -> R)

  /** `f` applied to every element, in order (a `transform | to<vector>` pipeline). */
  function Map<A, B>(f: A -> B, s: seq<A>): (r: seq<B>)
    ensures |r| == |s| && forall i :: 0 <= i < |s| ==> r[i] == f(s[i])
  {
    seq(|s|, i requires 0 <= i < |s| => f(s[i]))
  }

  /** `take(size / 2)`: the lower half of a spectrum. */
  function HalfOf<Z>(freq: seq<Z>): (half: seq<Z>)
    ensures half <= freq
    ensures 2 * |half| <= |freq| <= 2 * |half| + 1
  {
    freq[..|freq| / 2]
  }

  /** `AudioState::Intermediate`: the stages of one analysis, kept between ticks. */
  datatype Intermediate<Z, R> = Intermediate(
    timeDomain: seq<Z>,
    freqDomain: seq<Z>,
    halfFreqDomain: seq<Z>,
    absHalfFreqDomain: seq<R>,
    logAbsHalfFreqDomain: seq<R>)

  /** Channel 0 of an interleaved frame (`stride(capture_channels)`), widened to complex samples. */
  function ChannelZero<S, Z>(toComplex: S -> Z, frame: seq<S>, channels: nat): (td: seq<Z>)
    requires channels > 0
    ensures |frame| <= |td| * channels
    ensures forall i :: 0 <= i < |td| ==> 0 <= i * channels < |frame| && td[i] == toComplex(frame[i * channels])
  {
    Map(toComplex, Stride(frame, channels))
  }

  /** A frame of `frame_size == channels * frame_count` samples gives exactly `frame_count` time-domain samples. */
  lemma ChannelZeroLength<S, Z>(toComplex: S -> Z, frame: seq<S>, channels: nat, count: nat)
    requires channels > 0 && |frame| == count * channels
    ensures |ChannelZero(toComplex, frame, channels)| == count
  {
    StrideOfFrame(frame, channels, count);
  }

  /** The time domain after a drain: from the last whole frame if there was one, else what it was before. */
  function DrainedTimeDomain<S, Z>(toComplex: S -> Z, last: Option<seq<S>>, channels: nat, previous: seq<Z>): (td: seq<Z>)
    requires channels > 0
    ensures last.None? ==> td == previous
    ensures last.Some? ==> td == ChannelZero(toComplex, last.value, channels)
  {
    match last
    case None => previous
    case Some(frame) => ChannelZero(toComplex, frame, channels)
  }

  /**
   * One analysis of a full time domain: the FFT, its lower half, the
   * magnitudes of that half and their logs.
   */
  function Analyse<S, Z, R>(num: Numerics<S, Z, R>, timeDomain: seq<Z>): (i: Intermediate<Z, R>)
    ensures i.timeDomain == timeDomain && i.freqDomain == num.fft(timeDomain)
    ensures i.halfFreqDomain <= i.freqDomain && 2 * |i.halfFreqDomain| <= |i.freqDomain| <= 2 * |i.halfFreqDomain| + 1
    ensures |i.absHalfFreqDomain| == |i.halfFreqDomain| && |i.logAbsHalfFreqDomain| == |i.halfFreqDomain|
    ensures forall k :: 0 <= k < |i.halfFreqDomain| ==>
      i.absHalfFreqDomain[k] == num.abs(i.freqDomain[k]) && i.logAbsHalfFreqDomain[k] == num.log(i.absHalfFreqDomain[k])
  {
    var freq := num.fft(timeDomain);
    var half := HalfOf(freq);
    var absHalf := Map(num.abs, half);
    Intermediate(timeDomain, freq, half, absHalf, Map(num.log, absHalf))
  }

  /** What is published to the renderer: every log magnitude divided by the log of the spectrum's length. */
  function Normalised<S, Z, R>(num: Numerics<S, Z, R>, i: Intermediate<Z, R>): (out: seq<R>)
    ensures |out| == |i.logAbsHalfFreqDomain|
    ensures forall k :: 0 <= k < |out| ==> out[k] == num.div(i.logAbsHalfFreqDomain[k], num.logOfSize(|i.freqDomain|))
  {
    var normalizeBy := num.logOfSize(|i.freqDomain|);
    Map((x: R) => num.div(x, normalizeBy), i.logAbsHalfFreqDomain)
  }

  /** The published output has one value per bin of the lower half of the spectrum. */
  lemma PublishedLength<S, Z, R>(num: Numerics<S, Z, R>, timeDomain: seq<Z>)
    ensures var i := Analyse(num, timeDomain);
      |Normalised(num, i)| == |i.halfFreqDomain| && 2 * |Normalised(num, i)| <= |num.fft(timeDomain)|
  {
  }

  /**
   * When `frame_size` is `capture_channels * frame_count` without
   * overflow, a drain that cut at least one frame leaves a time domain of
   * `frame_count` samples, so the analysis runs; a drain that cut none
   * keeps the previous time domain.
   */
  lemma DrainFeedsAnalysis<S, Z>(toComplex: S -> Z, config: DataConfig, buffered: seq<S>, previous: seq<Z>)
    requires config.captureChannels > 0 && config.frameSize == config.captureChannels * config.frameCount
    requires config.frameSize > 0
    ensures |buffered| >= config.frameSize ==>
      |DrainedTimeDomain(toComplex, LastFrame(buffered, config.frameSize), config.captureChannels, previous)| == config.frameCount
    ensures |buffered| < config.frameSize ==>
      DrainedTimeDomain(toComplex, LastFrame(buffered, config.frameSize), config.captureChannels, previous) == previous
  {
    LastFrameAt(buffered, config.frameSize);
    if |buffered| >= config.frameSize {
      var n := |Frames(buffered, config.frameSize)|;
      var frame := buffered[(n - 1) * config.frameSize..n * config.frameSize];
      MulSucc(n - 1, config.frameSize);
      assert |frame| == config.frameCount * config.captureChannels;
      ChannelZeroLength(toComplex, frame, config.captureChannels, config.frameCount);
    }
  }

  /** `RenderState`, reduced to the cell the audio update publishes into. */
  class RenderState<R> {
    var normalizedFreqProcOutput: Dirty<seq<R>>

    constructor ()
      ensures normalizedFreqProcOutput == Empty()
    {
      normalizedFreqProcOutput := Empty();
    }
  }

  /** What `audio_update_device` decides from the two control cells. */
  datatype Decision = NoUpdate | NotEnoughData | Rebuild(deviceType: DeviceType, index: u64)

  /**
   * Release both cells; with neither pending there is nothing to do. The
   * released value is preferred and the current value is the fallback (they
   * agree whenever a change is pending); without both a type and an index
   * the device is left as it is.
   */
  function Decide(typeCell: Dirty<DeviceType>, indexCell: Dirty<u64>): (d: Decision)
    requires typeCell.Valid() && indexCell.Valid()
    ensures d == NoUpdate <==> !typeCell.pending && !indexCell.pending
    ensures d.Rebuild? <==> (typeCell.pending || indexCell.pending) && typeCell.Get().Some? && indexCell.Get().Some?
    ensures d.Rebuild? ==> Some(d.deviceType) == typeCell.Get() && Some(d.index) == indexCell.Get()
  {
    var maybeNewType := typeCell.Release().0;
    var maybeNewIndex := indexCell.Release().0;
    if maybeNewType.None? && maybeNewIndex.None? then NoUpdate
    else
      var newType := if maybeNewType.Some? then maybeNewType else typeCell.Get();
      var newIndex := if maybeNewIndex.Some? then maybeNewIndex else indexCell.Get();
      if newType.None? || newIndex.None? then NotEnoughData
      else Rebuild(newType.value, newIndex.value)
  }

  /**
   * Choosing a device type resets the capture source, so on its own it
   * never rebuilds the device; choosing a source afterwards rebuilds with
   * exactly that type and source, whether or not an update released the
   * type choice in between.
   */
  lemma TypeThenSource(typeCell: Dirty<DeviceType>, t: DeviceType, index: u64)
    requires typeCell.Valid()
    ensures !Decide(SetIfNe(typeCell, t), Empty()).Rebuild?
    ensures Decide(SetIfNe(typeCell, t), SetIfNe(Empty(), index)) == Rebuild(t, index)
    ensures Decide(SetIfNe(typeCell, t).Release().1, SetIfNe(Empty(), index)) == Rebuild(t, index)
  {
  }

  /** A control that was released and then set to the value it holds triggers nothing. */
  lemma ReselectingIsQuiet(typeCell: Dirty<DeviceType>, indexCell: Dirty<u64>, index: u64)
    requires typeCell.Valid() && indexCell.Valid() && indexCell.Get() == Some(index)
    ensures Decide(typeCell.Release().1, SetIfNe(indexCell.Release().1, index)) == NoUpdate
  {
  }

  /** The callback each selectable device type is opened with; other types are not supported. */
  function CaptureProcFor(t: DeviceType): Option<DataProc> {
    match t
    case Capture => Some(CaptureProc)
    case Loopback => Some(LoopbackProc)
    case _ => None
  }

  /**
   * The new handle: capture and loopback devices are opened on the chosen
   * capture descriptor with the configuration's channel count and sample
   * rate and the data callback as user data; any other type is refused.
   */
  function NewHandle(ctx: Context, config: DataConfig, t: DeviceType, index: u64, userData: object?): (h: Result<Device, MaResult>)
    requires index < |ctx.captureInfos|
    ensures InitRecord(ctx, config, t, index, userData).None? ==> h == Failure(MA_DEVICE_TYPE_NOT_SUPPORTED)
    ensures InitRecord(ctx, config, t, index, userData).Some? ==> h == ctx.layer.init(InitRecord(ctx, config, t, index, userData).value)
  {
    var deviceConfig := DeviceConfig(index, config.captureChannels);
    match t
    case Capture => CreateCaptureDevice(ctx, config, deviceConfig, userData)
    case Loopback => CreateLoopbackDevice(ctx, config, deviceConfig, userData)
    case _ => Failure(MA_DEVICE_TYPE_NOT_SUPPORTED)
  }

  /** `handle.and_then(start.map(guard))`: no handle, no start; a guard only for a device that started. */
  function StartRunning(layer: DeviceLayer, handle: Result<Device, MaResult>): (r: Result<RunningGuard, MaResult>)
    ensures r.Success? <==> handle.Success? && layer.start(handle.value).Success?
    ensures r.Success? ==> r.value.device == handle.value
    ensures handle.Failure? ==> r == Failure(handle.error)
    ensures handle.Success? && r.Failure? ==> r.error == layer.start(handle.value).error
  {
    match handle
    case Failure(e) => Failure(e)
    case Success(device) =>
      match layer.start(device)
      case Failure(e) => Failure(e)
      case Success(_) => Success(RunningGuard(device))
  }

  /** The device-layer calls a rebuild makes, in the order it makes them. */
  datatype DeviceEvent = Stop(stopped: Device) | Init(config: DeviceConfigRecord) | Uninit(closed: Device) | Start(started: Device)

  function Rank(e: DeviceEvent): nat {
    match e
    case Stop(_) => 0
    case Init(_) => 1
    case Uninit(_) => 2
    case Start(_) => 3
  }

  /**
   * The configuration a rebuild hands to the device layer: only for capture
   * and loopback, with only the capture section filled, from the chosen
   * descriptor at the configuration's channel count and sample rate.
   */
  function InitRecord(ctx: Context, config: DataConfig, t: DeviceType, index: u64, userData: object?): (r: Option<DeviceConfigRecord>)
    requires index < |ctx.captureInfos|
    ensures r.Some? <==> t == Capture || t == Loopback
    ensures r.Some? ==> && r.value.deviceType == t && r.value.playback == UNSET
                        && r.value.capture == SubConfig(Some(ctx.captureInfos[index].id), FormatF32, config.captureChannels)
                        && r.value.sampleRate == config.sampleRate && r.value.userData == userData
                        && r.value.dataCallback == Some(if t == Capture then CaptureProc else LoopbackProc)
  {
    if CaptureProcFor(t).None? then None
    else Some(DeviceConfigRecord(
      t, UNSET, SubConfig(Some(ctx.captureInfos[index].id), FormatF32, config.captureChannels),
      config.sampleRate, CaptureProcFor(t), userData))
  }

  function OptionalEvent(present: bool, e: DeviceEvent): seq<DeviceEvent> {
    if present then [e] else []
  }

  /**
   * The calls of one rebuild: the old guard stops its device (resetting
   * `running`), the new device is opened, assigning `handle` closes the old
   * one, and the new one is started.
   */
  function RebuildEvents(oldRunning: Result<RunningGuard, MaResult>, init: Option<DeviceConfigRecord>,
                         oldHandle: Result<Device, MaResult>, newHandle: Result<Device, MaResult>): seq<DeviceEvent>
  {
    StopEvents(oldRunning) + InitEvents(init) + UninitEvents(oldHandle) + StartEvents(newHandle)
  }

  /** Releasing a guard, if there is one, stops its device. */
  function StopEvents(running: Result<RunningGuard, MaResult>): seq<DeviceEvent> {
    OptionalEvent(running.Success?, Stop(if running.Success? then running.value.device else Device(0)))
  }

  /** The device layer is asked to open a device when there is a configuration for it. */
  function InitEvents(init: Option<DeviceConfigRecord>): seq<DeviceEvent> {
    OptionalEvent(init.Some?, Init(if init.Some? then init.value else DeviceConfigInit(Capture)))
  }

  /** Destroying a handle that holds a device closes it. */
  function UninitEvents(handle: Result<Device, MaResult>): seq<DeviceEvent> {
    OptionalEvent(handle.Success?, Uninit(if handle.Success? then handle.value else Device(0)))
  }

  /** A handle that holds a device is started. */
  function StartEvents(handle: Result<Device, MaResult>): seq<DeviceEvent> {
    OptionalEvent(handle.Success?, Start(if handle.Success? then handle.value else Device(0)))
  }

  /** Ranks strictly increase along `es`: no call is repeated and none comes out of order. */
  ghost predicate Ascending(es: seq<DeviceEvent>) {
    forall i, j :: 0 <= i < j < |es| ==> Rank(es[i]) < Rank(es[j])
  }

  /** Every event of `es` has a rank in `[lo, hi)`. */
  ghost predicate RanksWithin(es: seq<DeviceEvent>, lo: nat, hi: nat) {
    forall i :: 0 <= i < |es| ==> lo <= Rank(es[i]) < hi
  }

  /** An ascending run ranked below `n` followed by one ranked from `n` on is ascending. */
  lemma AscendingConcat(s: seq<DeviceEvent>, t: seq<DeviceEvent>, lo: nat, n: nat, hi: nat)
    requires lo <= n <= hi && Ascending(s) && Ascending(t) && RanksWithin(s, lo, n) && RanksWithin(t, n, hi)
    ensures Ascending(s + t) && RanksWithin(s + t, lo, hi)
  {
    forall i, j | 0 <= i < j < |s + t| ensures Rank((s + t)[i]) < Rank((s + t)[j]) {
      if j < |s| {
        assert (s + t)[i] == s[i] && (s + t)[j] == s[j];
      } else if i < |s| {
        assert (s + t)[i] == s[i] && (s + t)[j] == t[j - |s|];
      } else {
        assert (s + t)[i] == t[i - |s|] && (s + t)[j] == t[j - |s|];
      }
    }
    forall i | 0 <= i < |s + t| ensures lo <= Rank((s + t)[i]) < hi {
      if i < |s| {
        assert (s + t)[i] == s[i];
      } else {
        assert (s + t)[i] == t[i - |s|];
      }
    }
  }

  /** At most one event, ranked as that event. */
  lemma OptionalEventRanks(present: bool, e: DeviceEvent)
    ensures Ascending(OptionalEvent(present, e)) && RanksWithin(OptionalEvent(present, e), Rank(e), Rank(e) + 1)
  {
  }

  /** Four optional events of ranks 0, 1, 2 and 3, in that order, are ascending. */
  lemma FourInOrder(p0: bool, e0: DeviceEvent, p1: bool, e1: DeviceEvent,
                    p2: bool, e2: DeviceEvent, p3: bool, e3: DeviceEvent)
    requires Rank(e0) == 0 && Rank(e1) == 1 && Rank(e2) == 2 && Rank(e3) == 3
    ensures Ascending(OptionalEvent(p0, e0) + OptionalEvent(p1, e1) + OptionalEvent(p2, e2) + OptionalEvent(p3, e3))
  {
    var a, b, c, d := OptionalEvent(p0, e0), OptionalEvent(p1, e1), OptionalEvent(p2, e2), OptionalEvent(p3, e3);
    OptionalEventRanks(p0, e0);
    OptionalEventRanks(p1, e1);
    OptionalEventRanks(p2, e2);
    OptionalEventRanks(p3, e3);
    AscendingConcat(a, b, 0, 1, 2);
    AscendingConcat(a + b, c, 0, 2, 3);
    AscendingConcat(a + b + c, d, 0, 3, 4);
  }

  /**
   * A rebuild makes each call at most once and in a fixed order: stop the
   * old guard's device, open the new device, close the old handle, start
   * the new handle.
   */
  lemma RebuildOrder(oldRunning: Result<RunningGuard, MaResult>, init: Option<DeviceConfigRecord>,
                     oldHandle: Result<Device, MaResult>, newHandle: Result<Device, MaResult>)
    ensures Ascending(RebuildEvents(oldRunning, init, oldHandle, newHandle))
  {
    FourInOrder(oldRunning.Success?, Stop(if oldRunning.Success? then oldRunning.value.device else Device(0)),
                init.Some?, Init(if init.Some? then init.value else DeviceConfigInit(Capture)),
                oldHandle.Success?, Uninit(if oldHandle.Success? then oldHandle.value else Device(0)),
                newHandle.Success?, Start(if newHandle.Success? then newHandle.value else Device(0)));
  }

  /** The device calls of a rebuild happen exactly when their subject exists, on that subject. */
  lemma RebuildCalls(oldRunning: Result<RunningGuard, MaResult>, init: Option<DeviceConfigRecord>,
                     oldHandle: Result<Device, MaResult>, newHandle: Result<Device, MaResult>)
    ensures var es := RebuildEvents(oldRunning, init, oldHandle, newHandle);
      && (forall d :: Stop(d) in es <==> oldRunning == Success(RunningGuard(d)))
      && (forall d :: Uninit(d) in es <==> oldHandle == Success(d))
      && (forall d :: Start(d) in es <==> newHandle == Success(d))
  {
  }

  /** A rebuild opens a device exactly when its type is supported, with that configuration. */
  lemma RebuildOpens(oldRunning: Result<RunningGuard, MaResult>, init: Option<DeviceConfigRecord>,
                     oldHandle: Result<Device, MaResult>, newHandle: Result<Device, MaResult>)
    ensures var es := RebuildEvents(oldRunning, init, oldHandle, newHandle);
      && (init.Some? <==> exists k :: 0 <= k < |es| && es[k].Init?)
      && (forall k :: 0 <= k < |es| && es[k].Init? ==> Some(es[k].config) == init)
  {
    var a := OptionalEvent(oldRunning.Success?, Stop(if oldRunning.Success? then oldRunning.value.device else Device(0)));
    var b := OptionalEvent(init.Some?, Init(if init.Some? then init.value else DeviceConfigInit(Capture)));
    var c := OptionalEvent(oldHandle.Success?, Uninit(if oldHandle.Success? then oldHandle.value else Device(0)));
    var d := OptionalEvent(newHandle.Success?, Start(if newHandle.Success? then newHandle.value else Device(0)));
    var es := a + b + c + d;
    assert es == RebuildEvents(oldRunning, init, oldHandle, newHandle);
    forall k | 0 <= k < |es| ensures es[k].Init? ==> Some(es[k].config) == init {
      if k < |a| {
        assert es[k] == a[k];
      } else if k >= |a| + |b| + |c| {
        assert es[k] == d[k - |a| - |b| - |c|];
      } else if k >= |a| + |b| {
        assert es[k] == c[k - |a| - |b|];
      } else {
        assert es[k] == b[k - |a|];
      }
    }
    if init.Some? {
      assert es[|a|] == b[0];
    }
  }

  class AudioState<S, Z, R> {
    const context: Context
    /** The data callback; its address is the user data of every device opened here. */
    const callback: DataCallback<S>
    /** The stages of the last analysis. */
    var intermediate: Intermediate<Z, R>
    var handle: Result<Device, MaResult>
    var running: Result<RunningGuard, MaResult>
    /** `device_controls`: the chosen device type and capture-source index. */
    var typeCell: Dirty<DeviceType>
    var indexCell: Dirty<u64>
    /** The device-layer calls made so far. */
    ghost var events: seq<DeviceEvent>

    /**
     * A running guard always belongs to the current device, and a chosen
     * capture source names one of the context's capture descriptors.
     */
    ghost predicate Valid()
      reads this
    {
      && (running.Success? ==> handle == Success(running.value.device))
      && typeCell.Valid() && indexCell.Valid()
      && (indexCell.Get().Some? ==> indexCell.Get().value < |context.captureInfos|)
    }

    /**
     * `create_audio_entity`'s initial state: a fresh callback, no device
     * (both `handle` and `running` hold the error `MA_SUCCESS`) and no
     * selection.
     */
    constructor (context: Context, config: DataConfig)
      ensures Valid() && fresh(callback) && callback.chunk == []
      ensures this.context == context && intermediate == Intermediate([], [], [], [], [])
      ensures handle == Failure(MA_SUCCESS) && running == Failure(MA_SUCCESS)
      ensures typeCell == Empty() && indexCell == Empty() && events == []
    {
      this.context := context;
      callback := new DataCallback(config);
      intermediate := Intermediate([], [], [], [], []);
      handle := Failure(MA_SUCCESS);
      running := Failure(MA_SUCCESS);
      typeCell := Empty();
      indexCell := Empty();
      events := [];
    }

    /** The device-type combo: `set_if_ne` on the type, then the capture source is reset. */
    method ChooseDeviceType(t: DeviceType)
      requires Valid()
      modifies this
      ensures Valid()
      ensures typeCell == SetIfNe(old(typeCell), t) && indexCell == Empty()
      ensures handle == old(handle) && running == old(running) && events == old(events)
      ensures intermediate == old(intermediate)
    {
      typeCell := SetIfNe(typeCell, t);
      indexCell := Empty();
    }

    /** The capture-source combo: `set_if_ne` with the position of the chosen descriptor. */
    method ChooseCaptureSource(index: u64)
      requires Valid() && index < |context.captureInfos|
      modifies this
      ensures Valid()
      ensures indexCell == SetIfNe(old(indexCell), index) && typeCell == old(typeCell)
      ensures handle == old(handle) && running == old(running) && events == old(events)
      ensures intermediate == old(intermediate)
    {
      indexCell := SetIfNe(indexCell, index);
    }

    /**
     * `audio_update_device`: release both controls; on a rebuild, stop the
     * running device, open the new one, and start it.
     */
    method UpdateDevice(config: DataConfig)
      requires Valid()
      modifies this
      ensures Valid()
      ensures typeCell == old(typeCell.Release().1) && indexCell == old(indexCell.Release().1)
      ensures intermediate == old(intermediate)
      ensures !old(Decide(typeCell, indexCell)).Rebuild? ==>
        handle == old(handle) && running == old(running) && events == old(events)
      ensures old(Decide(typeCell, indexCell)).Rebuild? ==>
        var d := old(Decide(typeCell, indexCell));
        && handle == NewHandle(context, config, d.deviceType, d.index, callback)
        && running == StartRunning(context.layer, handle)
        && events == old(events) + RebuildEvents(old(running),
             InitRecord(context, config, d.deviceType, d.index, callback), old(handle), handle)
    {
      var d := Decide(typeCell, indexCell);
      typeCell := typeCell.Release().1;
      indexCell := indexCell.Release().1;
      if d.Rebuild? {
        RebuildDevice(config, d.deviceType, d.index);
      }
    }

    /**
     * The rebuild half of `audio_update_device`, for a type and a capture
     * source already decided: stop, open, assign, start, each step
     * recording the device-layer call it makes.
     */
    method RebuildDevice(config: DataConfig, t: DeviceType, index: u64)
      requires Valid() && index < |context.captureInfos|
      modifies this
      ensures Valid()
      ensures typeCell == old(typeCell) && indexCell == old(indexCell) && intermediate == old(intermediate)
      ensures handle == NewHandle(context, config, t, index, callback)
      ensures running == StartRunning(context.layer, handle)
      ensures events == old(events) + RebuildEvents(old(running), InitRecord(context, config, t, index, callback), old(handle), handle)
    {
      StopRunning();
      var created := OpenHandle(config, t, index);
      AssignHandle(created);
      StartNew();
    }

    /**
     * `running = err(MA_SUCCESS)`: dropping the guard runs its deferred
     * stop, on the device the handle holds at that moment.
     */
    method StopRunning()
      requires Valid()
      modifies this
      ensures Valid() && running == Failure(MA_SUCCESS)
      ensures events == old(events) + StopEvents(old(running))
      ensures handle == old(handle) && typeCell == old(typeCell) && indexCell == old(indexCell)
      ensures intermediate == old(intermediate)
    {
      if running.Success? {
        events := events + [Stop(handle.value)];
      }
      running := Failure(MA_SUCCESS);
    }

    /** The `create_*_device` call of the switch: the device layer is asked to open the new device, if the type is supported. */
    method OpenHandle(config: DataConfig, t: DeviceType, index: u64) returns (created: Result<Device, MaResult>)
      requires index < |context.captureInfos|
      modifies this
      ensures created == NewHandle(context, config, t, index, callback)
      ensures events == old(events) + InitEvents(InitRecord(context, config, t, index, callback))
      ensures handle == old(handle) && running == old(running) && typeCell == old(typeCell) && indexCell == old(indexCell)
      ensures intermediate == old(intermediate)
    {
      var init := InitRecord(context, config, t, index, callback);
      if init.Some? {
        events := events + [Init(init.value)];
      }
      created := NewHandle(context, config, t, index, callback);
    }

    /**
     * Assigning to `handle` destroys the old device, closing it; no running
     * guard may still refer to it.
     */
    method AssignHandle(created: Result<Device, MaResult>)
      requires Valid() && running.Failure?
      modifies this
      ensures Valid() && handle == created
      ensures events == old(events) + UninitEvents(old(handle))
      ensures running == old(running) && typeCell == old(typeCell) && indexCell == old(indexCell)
      ensures intermediate == old(intermediate)
    {
      if handle.Success? {
        events := events + [Uninit(handle.value)];
      }
      handle := created;
    }

    /** `running = handle.and_then(...)`: start the current handle's device and keep a guard when it starts. */
    method StartNew()
      requires Valid() && running.Failure?
      modifies this
      ensures Valid() && running == StartRunning(context.layer, handle)
      ensures events == old(events) + StartEvents(handle)
      ensures handle == old(handle) && typeCell == old(typeCell) && indexCell == old(indexCell)
      ensures intermediate == old(intermediate)
    {
      if handle.Success? {
        events := events + [Start(handle.value)];
      }
      running := StartRunning(context.layer, handle);
    }

    /**
     * `audio_update_process`: drain every whole frame, keeping channel 0 of
     * the last one as the time domain; with a time domain of `frame_count`
     * samples, analyse it and, when the render entity exists, publish the
     * normalised half spectrum.
     */
    method UpdateProcess(config: DataConfig, num: Numerics<S, Z, R>, render: RenderState?<R>)
      requires config.frameSize > 0 && config.captureChannels > 0
      modifies this, callback, render
      ensures callback.chunk == DrainRest(old(callback.chunk), config.frameSize)
      ensures var td := DrainedTimeDomain(num.toComplex, LastFrame(old(callback.chunk), config.frameSize),
                                          config.captureChannels, old(intermediate.timeDomain));
        if |td| != config.frameCount then
          intermediate == old(intermediate).(timeDomain := td) && (render != null ==> unchanged(render))
        else
          intermediate == Analyse(num, td)
          && (render != null ==> render.normalizedFreqProcOutput == old(render.normalizedFreqProcOutput).Set(Normalised(num, intermediate)))
      ensures handle == old(handle) && running == old(running) && typeCell == old(typeCell)
      ensures indexCell == old(indexCell) && events == old(events)
    {
      ghost var buffered := callback.chunk;
      ghost var previous := intermediate.timeDomain;
      while true
        invariant DrainRest(callback.chunk, config.frameSize) == DrainRest(buffered, config.frameSize)
        invariant DrainedTimeDomain(num.toComplex, LastFrame(callback.chunk, config.frameSize), config.captureChannels, intermediate.timeDomain)
               == DrainedTimeDomain(num.toComplex, LastFrame(buffered, config.frameSize), config.captureChannels, previous)
        invariant intermediate == old(intermediate).(timeDomain := intermediate.timeDomain)
        invariant handle == old(handle) && running == old(running) && typeCell == old(typeCell)
        invariant indexCell == old(indexCell) && events == old(events)
        invariant render != null ==> unchanged(render)
        decreases |callback.chunk|
      {
        ghost var before := callback.chunk;
        var span := callback.TryConsume(config);
        if span.None? {
          break;
        }
        LastFrameStep(before, config.frameSize);
        intermediate := intermediate.(timeDomain := ChannelZero(num.toComplex, span.value, config.captureChannels));
      }
      if |intermediate.timeDomain| != config.frameCount {
        return;
      }
      intermediate := Analyse(num, intermediate.timeDomain);
      if render != null {
        render.normalizedFreqProcOutput := render.normalizedFreqProcOutput.Set(Normalised(num, intermediate));
      }
    }
  }
}
