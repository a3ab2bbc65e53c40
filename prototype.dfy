/**
 * The command-line prototype (`src/main.cpp`): a capture callback that hands
 * chunks over a queue of capacity one, and the consumer loop that appends
 * each fetched chunk to a growing buffer and cuts it into frames of
 * `1024 * capture_channels` samples, keeping channel 0 of each.
 */
module Prototype {
  import opened Wrappers
  import opened Framing
  import opened Spsc
  import opened Visualizer

  /** Time-domain samples analysed per frame. */
  const AUDIO_DATA_FRAME_COUNT: nat := 1024

  class AudioCallback<S> {
    /** The bridge to the consumer: room for a single chunk. */
    const dataQueue: SpscQueue<S>

    ghost predicate Valid()
      reads this, dataQueue
    {
      dataQueue.Valid() && dataQueue.capacity == 1
    }

    constructor ()
      ensures Valid() && fresh(dataQueue) && dataQueue.items == []
    {
      dataQueue := new SpscQueue(1);
    }

    /** `operator()`: offer a copy of the input; while a chunk is still queued the new one is dropped. */
    method Deliver(input: array<S>)
      requires Valid()
      modifies dataQueue
      ensures Valid()
      ensures old(dataQueue.items) == [] ==> dataQueue.items == [input[..]]
      ensures old(dataQueue.items) != [] ==> dataQueue.items == old(dataQueue.items)
    {
      var _ := dataQueue.TryEmplace(input);
    }
  }

  /** With room for one chunk, a chunk delivered before the consumer took the previous one is lost. */
  lemma BridgeDropsWhileFull<S>(a: seq<S>, b: seq<S>)
    ensures Replay([Produce(a), Produce(b), Consume, Consume], 1, []) == ([a], [], [a])
  {
    var full := ProduceStep([], 1, a);
    assert full == [a];
    assert ProduceStep(full, 1, b) == full;
    assert Replay<S>([Consume], 1, []) == ([], [], []);
    var consumes: seq<Op<S>> := [Consume, Consume];
    assert consumes[1..] == [Consume] && full[1..] == [];
    assert Replay(consumes[1..], 1, full[1..]) == ([], [], []);
    assert consumes[0] == Consume && full[0] == a && [a] + [] == [a];
    assert Replay(consumes, 1, full) == ([a], [], []);
    assert Replay([Produce(b), Consume, Consume], 1, full) == ([a], [], []);
  }

  /** Channel 0 of the buffer's first frame: `frame_count` samples, element `i` being sample `i * channels`. */
  lemma ChannelZeroOfFirstFrame<S, Z>(audioData: seq<S>, channels: nat, toComplex: S -> Z)
    requires channels > 0 && |audioData| >= AUDIO_DATA_FRAME_COUNT * channels
    ensures var td := ChannelZero(toComplex, audioData[..AUDIO_DATA_FRAME_COUNT * channels], channels);
      && |td| == AUDIO_DATA_FRAME_COUNT
      && forall i :: 0 <= i < AUDIO_DATA_FRAME_COUNT ==>
           0 <= i * channels < |audioData| && td[i] == toComplex(audioData[i * channels])
  {
    var frame := audioData[..AUDIO_DATA_FRAME_COUNT * channels];
    ChannelZeroLength(toComplex, frame, channels, AUDIO_DATA_FRAME_COUNT);
    forall i | 0 <= i < AUDIO_DATA_FRAME_COUNT
      ensures 0 <= i * channels < |audioData|
      ensures ChannelZero(toComplex, frame, channels)[i] == toComplex(audioData[i * channels])
    {
      StrideIndexInBounds(i, channels, AUDIO_DATA_FRAME_COUNT, |frame|);
      assert frame[i * channels] == audioData[i * channels];
    }
  }

  /**
   * The lambda that fills `time_domain_input`: a vector of
   * `audio_data_frame_count` value-initialised samples, where element `i`
   * becomes sample `i * capture_channels` of the buffer.
   */
  method ExtractTimeDomain<S, Z(0)>(audioData: seq<S>, channels: nat, toComplex: S -> Z) returns (td: seq<Z>)
    requires channels > 0 && |audioData| >= AUDIO_DATA_FRAME_COUNT * channels
    ensures |td| == AUDIO_DATA_FRAME_COUNT
    ensures forall i :: 0 <= i < AUDIO_DATA_FRAME_COUNT ==>
      0 <= i * channels < |audioData| && td[i] == toComplex(audioData[i * channels])
  {
    var timeDomainInput := new Z[AUDIO_DATA_FRAME_COUNT];
    for i := 0 to AUDIO_DATA_FRAME_COUNT
      invariant forall k :: 0 <= k < i ==>
        0 <= k * channels < |audioData| && timeDomainInput[k] == toComplex(audioData[k * channels])
    {
      StrideIndexInBounds(i, channels, AUDIO_DATA_FRAME_COUNT, |audioData|);
      timeDomainInput[i] := toComplex(audioData[i * channels]);
    }
    td := timeDomainInput[..];
  }

  /**
   * What the prototype extracts is channel 0 of the buffer's first frame,
   * exactly as the visualizer's stride computes it.
   */
  lemma ExtractionIsChannelZero<S, Z>(audioData: seq<S>, channels: nat, toComplex: S -> Z, td: seq<Z>)
    requires channels > 0 && |audioData| >= AUDIO_DATA_FRAME_COUNT * channels
    requires |td| == AUDIO_DATA_FRAME_COUNT
    requires forall i :: 0 <= i < AUDIO_DATA_FRAME_COUNT ==>
      0 <= i * channels < |audioData| && td[i] == toComplex(audioData[i * channels])
    ensures td == ChannelZero(toComplex, audioData[..AUDIO_DATA_FRAME_COUNT * channels], channels)
  {
    ChannelZeroOfFirstFrame(audioData, channels, toComplex);
  }

  /**
   * One pass of the outer loop: take the queued chunk if there is one
   * (otherwise spin again with nothing changed), append it, then while a
   * whole frame is buffered extract its channel 0 and erase it. Returns the
   * new buffer and the time domain of every frame cut, in order.
   */
  method FramingStep<S, Z(0)>(cb: AudioCallback<S>, audioData: seq<S>, channels: nat, toComplex: S -> Z)
    returns (newAudioData: seq<S>, timeDomains: seq<seq<Z>>)
    requires cb.Valid() && channels > 0
    modifies cb.dataQueue
    ensures cb.Valid()
    ensures old(cb.dataQueue.items) == [] ==>
      newAudioData == audioData && timeDomains == [] && cb.dataQueue.items == []
    ensures old(cb.dataQueue.items) != [] ==>
      var size := AUDIO_DATA_FRAME_COUNT * channels;
      var buffered := audioData + old(cb.dataQueue.items)[0];
      && cb.dataQueue.items == []
      && newAudioData == DrainRest(buffered, size)
      && |timeDomains| == |Frames(buffered, size)|
      && forall k :: 0 <= k < |timeDomains| ==> timeDomains[k] == ChannelZero(toComplex, Frames(buffered, size)[k], channels)
  {
    var front := cb.dataQueue.Front();
    if front.None? {
      return audioData, [];
    }
    newAudioData := audioData + front.value;
    cb.dataQueue.Pop();
    assert cb.dataQueue.items == [];
    var audioDataSize := AUDIO_DATA_FRAME_COUNT * channels;
    ghost var buffered := newAudioData;
    ghost var consumed: seq<seq<S>> := [];
    timeDomains := [];
    while |newAudioData| >= audioDataSize
      invariant Frames(buffered, audioDataSize) == consumed + Frames(newAudioData, audioDataSize)
      invariant DrainRest(buffered, audioDataSize) == DrainRest(newAudioData, audioDataSize)
      invariant |timeDomains| == |consumed|
      invariant cb.Valid() && cb.dataQueue.items == []
      invariant forall k :: 0 <= k < |timeDomains| ==> timeDomains[k] == ChannelZero(toComplex, consumed[k], channels)
      decreases |newAudioData|
    {
      var timeDomainInput := ExtractTimeDomain(newAudioData, channels, toComplex);
      ExtractionIsChannelZero(newAudioData, channels, toComplex, timeDomainInput);
      assert Frames(newAudioData, audioDataSize) == [newAudioData[..audioDataSize]] + Frames(newAudioData[audioDataSize..], audioDataSize);
      consumed := consumed + [newAudioData[..audioDataSize]];
      timeDomains := timeDomains + [timeDomainInput];
      newAudioData := newAudioData[audioDataSize..];
    }
  }
}
