/**
 * The visualizer's data path (`audio::DataConfig`, `audio::DataCallback`):
 * the configuration with its sizes computed once, and the consumer-side
 * buffer that collects delivered chunks and gives them out one whole frame
 * at a time.
 */
module AudioData {
  import opened Wrappers
  import opened MachineInts
  import SaAudioData

  datatype DataConfig = DataConfig(
    captureChannels: u32,
    sampleRate: u32,
    frameCount: u64,
    maxFrameCount: u64,
    frameWindow: u64,
    frameSize: u64,
    frameMaxSize: u64,
    frameWindowSize: i64)

  /**
   * The `DataConfig` constructor: stores its five arguments and derives the
   * three sizes in `std::size_t` arithmetic (the window size then converted
   * to a signed 64-bit value).
   */
  function NewDataConfig(captureChannels: u32, sampleRate: u32, frameCount: u64, maxFrameCount: u64, frameWindow: u64): (c: DataConfig)
    ensures c.captureChannels == captureChannels && c.sampleRate == sampleRate
    ensures c.frameCount == frameCount && c.maxFrameCount == maxFrameCount && c.frameWindow == frameWindow
    ensures captureChannels * frameCount < TWO_TO_64 ==> c.frameSize == captureChannels * frameCount
    ensures captureChannels * maxFrameCount < TWO_TO_64 ==> c.frameMaxSize == captureChannels * maxFrameCount
    ensures captureChannels * frameWindow < TWO_TO_63 ==> c.frameWindowSize == captureChannels * frameWindow
  {
    DataConfig(
      captureChannels, sampleRate, frameCount, maxFrameCount, frameWindow,
      MulU64(captureChannels, frameCount),
      MulU64(captureChannels, maxFrameCount),
      U64ToI64(MulU64(captureChannels, frameWindow)))
  }

  /**
   * The stored sizes equal the prototype's computed accessors for the same
   * channel and frame counts, overflow included.
   */
  lemma SizesAgreeWithPrototype(captureChannels: u32, sampleRate: u32, frameCount: u64, maxFrameCount: u64, frameWindow: u64)
    ensures var c := NewDataConfig(captureChannels, sampleRate, frameCount, maxFrameCount, frameWindow);
      var p := SaAudioData.AudioDataConfig(captureChannels, frameCount, maxFrameCount, frameWindow);
      c.frameSize == p.FrameSize() && c.frameMaxSize == p.FrameMaxSize() && c.frameWindowSize == p.FrameWindowSize()
  {
  }

  /** The scene's configuration: one channel at 48000 Hz, frames of 2048, a ceiling of 16384, a hop of 1024. */
  function SceneConfig(): DataConfig {
    NewDataConfig(1, 48000, 1024 * 2, 1024 * 16, 1024)
  }

  lemma SceneConfigSizes()
    ensures SceneConfig().frameSize == 2048 && SceneConfig().frameMaxSize == 16384
    ensures SceneConfig().frameWindowSize == 1024
  {
  }

  class DataCallback<S> {
    /** `chunk_`: interleaved samples delivered and not yet consumed, oldest first. */
    var chunk: seq<S>

    /** A new callback has an empty buffer; reserving `frame_max_size` only pre-allocates. */
    constructor (config: DataConfig)
      ensures chunk == []
    {
      chunk := [];
    }

    /**
     * `operator()` followed by the `map` step it schedules on the consumer's
     * executor: the input is copied, then appended to the buffer (moved in
     * when the buffer is empty). There is no ceiling at `frame_max_size`.
     */
    method Deliver(input: array<S>)
      modifies this
      ensures chunk == old(chunk) + input[..]
      ensures |chunk| == |old(chunk)| + input.Length
    {
      var copy := input[..];
      if chunk == [] {
        chunk := copy;
      } else {
        chunk := chunk + copy;
      }
    }

    /**
     * `try_consume`: with at least `frame_size` samples buffered, hand the
     * first `frame_size` of them to the callable (returned here as `span`)
     * and erase them; otherwise report false, call nothing and change nothing.
     */
    method TryConsume(config: DataConfig) returns (span: Option<seq<S>>)
      modifies this
      ensures |old(chunk)| < config.frameSize ==> span == None && chunk == old(chunk)
      ensures |old(chunk)| >= config.frameSize ==>
        span == Some(old(chunk)[..config.frameSize]) && chunk == old(chunk)[config.frameSize..]
      ensures span.Some? ==> |span.value| == config.frameSize && span.value + chunk == old(chunk)
    {
      if config.frameSize > |chunk| {
        return None;
      }
      span := Some(chunk[..config.frameSize]);
      chunk := chunk[config.frameSize..];
      assert span.value + chunk == old(chunk);
    }
  }

  /**
   * The chunk is copied when it is delivered: writes the driver makes to its
   * buffer afterwards do not reach the consumer's buffer.
   */
  method DeliveredChunkIsACopy<S>(callback: DataCallback<S>, input: array<S>, later: S)
    requires input.Length > 0
    modifies callback, input
    ensures callback.chunk == old(callback.chunk) + old(input[..])
  {
    callback.Deliver(input);
    input[0] := later;
  }
}
