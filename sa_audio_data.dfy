/**
 * The prototype's data path (`sa::AudioDataConfig`, `sa::AudioDataCallback`,
 * `sa::create_audio_data_state`): derived sizes, and a real-time callback
 * that hands copies of its input to the consumer through a bounded queue.
 */
module SaAudioData {
  import opened Wrappers
  import opened MachineInts
  import opened Spsc

  datatype AudioDataConfig = AudioDataConfig(
    captureChannels: u32,
    frameCount: u64,
    maxFrameCount: u64,
    frameWindow: u64)
  {
    /** Interleaved samples in one analysis frame. */
    function FrameSize(): (r: u64)
      ensures captureChannels * frameCount < TWO_TO_64 ==> r == captureChannels * frameCount
    {
      MulU64(captureChannels, frameCount)
    }

    /** Interleaved samples in `max_frame_count` frames. */
    function FrameMaxSize(): (r: u64)
      ensures captureChannels * maxFrameCount < TWO_TO_64 ==> r == captureChannels * maxFrameCount
    {
      MulU64(captureChannels, maxFrameCount)
    }

    /** Interleaved samples in one hop, converted to a signed 64-bit count. */
    function FrameWindowSize(): (r: i64)
      ensures captureChannels * frameWindow < TWO_TO_63 ==> r == captureChannels * frameWindow
    {
      U64ToI64(MulU64(captureChannels, frameWindow))
    }
  }

  class AudioDataCallback<S> {
    const dataQueue: SpscQueue<S>

    ghost predicate Valid()
      reads this, dataQueue
    {
      dataQueue.Valid()
    }

    /** The queue is created empty with exactly the capacity asked for. */
    constructor (queueCapacity: nat)
      ensures Valid() && fresh(dataQueue)
      ensures dataQueue.capacity == queueCapacity && dataQueue.items == []
    {
      dataQueue := new SpscQueue(queueCapacity);
    }

    /**
     * `operator()`, on the real-time thread: enqueue a copy of the input if
     * there is room; when the queue is full the chunk is dropped and the
     * failure is ignored.
     */
    method Deliver(input: array<S>)
      requires Valid()
      modifies dataQueue
      ensures Valid()
      ensures dataQueue.items == ProduceStep(old(dataQueue.items), dataQueue.capacity, input[..])
    {
      var _ := dataQueue.TryEmplace(input);
    }

    /**
     * `fetch(output)`: append the oldest chunk to the caller's vector and
     * drop it from the queue; with nothing queued, report false and leave
     * the vector alone. The vector passed by reference is `output` in and
     * `result` out.
     */
    method Fetch(output: seq<S>) returns (fetched: bool, result: seq<S>)
      requires Valid()
      modifies dataQueue
      ensures Valid()
      ensures fetched <==> old(dataQueue.items) != []
      ensures !fetched ==> result == output && dataQueue.items == old(dataQueue.items)
      ensures fetched ==> result == output + old(dataQueue.items)[0] && dataQueue.items == old(dataQueue.items)[1..]
    {
      var front := dataQueue.Front();
      if front.None? {
        return false, output;
      }
      result := output + front.value;
      dataQueue.Pop();
      fetched := true;
    }
  }

  /**
   * The consumer's initial state: an empty sample buffer (its reserved
   * capacity is not observable here) and a time-domain vector of
   * `frame_count` value-initialised complex numbers, `zero`.
   */
  function CreateAudioDataState<S, Z>(config: AudioDataConfig, zero: Z): (state: (seq<S>, seq<Z>))
    ensures state.0 == []
    ensures |state.1| == config.frameCount
    ensures forall i :: 0 <= i < |state.1| ==> state.1[i] == zero
  {
    ([], seq(config.frameCount, _ => zero))
  }
}
