# serious-music-visualizer: the audio core, modelled in Dafny

This project models the audio core of serious-music-visualizer. That is the
code sitting between the audio driver (miniaudio) and the FFT library, in two generations:

- **the visualizer**, `audio::*` and `visualizer::*`.
  - A data callback copies each driver chunk and appends it to a growing
    interleaved buffer on the consumer's executor. `try_consume` hands out
    exactly one frame of `frame_size` samples at a time.
  - `audio_update_process` drains every whole frame and keeps channel 0 of
    the last one as the time domain. It analyses the time domain and
    publishes the normalised half spectrum into a change-tracking cell of
    the render state.
  - `audio_update_device` reads two change-tracking controls, the device
    type and the capture source, and decides whether to rebuild the device.
    A rebuild stops the running device, opens the new one and starts it.
- **the prototype**, `sa::*` and `src/main.cpp`.
  - The real-time callback pushes copies into a bounded single-producer
    single-consumer queue.
  - A consumer loop appends each fetched chunk to a buffer. It cuts off
    frames of `1024 * capture_channels` samples, keeps channel 0 of each and
    erases the frame.

Both generations' `create_device` use the same filling logic (two copies in
the source, one `FillDeviceConfig` here). `create_device`
fills the playback section when the device type has the playback bit. It
fills the capture section when the type has the capture bit or is loopback.
Each filled section comes from an enumerated descriptor with f32 samples.
The typed `create_*_device` wrappers fix the type, the callback and which
selections are passed.

Modelling choices:

- **Samples and maths.** Samples are an opaque type. So are the complex
  and real values of the analysis, and the FFT, `abs`, `log` and the
  division are uninterpreted functions (`Visualizer.Numerics`).
- **Fixed-width integers.** `std::size_t` products wrap modulo 2^64 and
  `ma_uint32` products wrap modulo 2^32. The `std::int64_t` cast is two's
  complement. All three are written out in `MachineInts`.
- **`sl::meta::dirty<T>`.** Its header is not part of this model. It is
  modelled from its call sites as a value with a pending flag.
  - `set` stores the value and marks it pending.
  - `set_if_ne` sets only a different value.
  - `get` reads the value.
  - `release` yields the value once while pending. It keeps the value and
    clears the flag.
  - A default-constructed cell is empty.
- **The device layer.** miniaudio itself is not part of this model.
  - Device initialisation and start are two opaque result-returning
    functions (`Miniaudio.DeviceLayer`).
  - Device types use miniaudio's encoding: playback 1, capture 2, duplex 3,
    loopback 4. `MA_DEVICE_TYPE_NOT_SUPPORTED` is -201.
- **Mutable state.** State the source mutates in place is a Dafny class:
  - `audio::DataCallback::chunk_`;
  - the SPSC queue;
  - `visualizer::AudioState`;
  - `RenderState`'s published cell.

  The driver's buffers are arrays, so the copy made on delivery is visible.
- **Rebuild trace.** A ghost trace of device-layer calls records the order
  in which a rebuild stops, opens, closes and starts devices. Each step of
  the rebuild is its own method and appends the call it makes, so the
  rebuild's contract fixes the order of its statements.

## Model

| member | source | states |
|---|---|---|
| MachineInts.MulU64 | include/audio/data.hpp:30-31 | the `std::size_t` product is congruent to the exact product modulo 2^64 and equal to it when it fits |
| MachineInts.MulU32 | include/audio/context.hpp:42 | the `ma_uint32` span-length product is congruent to the exact product modulo 2^32 and equal to it when it fits |
| MachineInts.U64ToI64 | include/sa/audio_data.hpp:25 | the signed cast keeps the bits: congruent modulo 2^64, non-negative exactly below 2^63, and then unchanged |
| DirtyCell.Dirty.Set | src/visualizer/audio.cpp:110 | after `set` the cell holds the value and has a change pending |
| DirtyCell.Dirty.Get | src/visualizer/audio.cpp:121-122 | `get` reads the current value whether or not it was released; while a change is pending there is one |
| DirtyCell.Dirty.Release | src/visualizer/audio.cpp:115-116 | `release` yields a value exactly when a change was pending, namely the current value; afterwards nothing is pending and the value is kept |
| DirtyCell.Empty | src/visualizer/audio.cpp:199 | a reset cell has no value and nothing pending |
| DirtyCell.SetIfNe | src/visualizer/audio.cpp:198 | after `set_if_ne` the cell holds the value; an equal value leaves the cell as it was, a different one is `set` |
| DirtyCell.ReleaseOnce | src/visualizer/audio.cpp:115-116 | a released change cannot be released a second time |
| DirtyCell.SetSameAfterReleaseIsQuiet | src/visualizer/audio.cpp:214 | re-selecting the value a cell already holds leaves nothing to release |
| Framing.Stride | src/visualizer/audio.cpp:79 | `stride(n)` picks element `i * n` as element `i`, all in bounds, and covers the whole input |
| Framing.StrideOfFrame | src/visualizer/audio.cpp:78-79 | a frame of `count * channels` samples strides to exactly `count` samples |
| Framing.StrideIndexInBounds | src/main.cpp:58-64 | every read index `i * channels`, `i < count`, lies inside a buffer of at least `count * channels` samples |
| Framing.Frames | src/visualizer/audio.cpp:77-81 | every frame the drain cuts has exactly `frame_size` samples |
| Framing.DrainRest | src/visualizer/audio.cpp:77-81 | after draining fewer than `frame_size` samples remain |
| Framing.FramesThenRest | include/audio/data.hpp:61-64 | the frames handed out, followed by the remainder, are the buffer exactly: nothing lost, duplicated or reordered |
| Framing.FramesCount | src/main.cpp:58 | the drain cuts as many frames as fit: `n * size <= |buf| < (n + 1) * size` |
| Framing.FrameAt | include/audio/data.hpp:61-64 | frame `k` is the slice `[k * size, (k + 1) * size)` of the buffer |
| Framing.DrainRestAt | src/main.cpp:69 | the remainder is the buffer after its last whole frame, in order |
| Framing.LastFrameStep | src/visualizer/audio.cpp:80 | each consumed frame overwrites the time domain: the last frame of the buffer is the first frame unless a later one follows |
| Framing.LastFrameAt | src/visualizer/audio.cpp:77-81 | there is no last frame exactly when the buffer is shorter than a frame; otherwise it is the slice ending where the remainder starts |
| Spsc.ProduceStep | src/sa/audio_data.cpp:10 | `try_emplace` appends the chunk while there is room and changes nothing when full |
| Spsc.SpscQueue.constructor | include/sa/audio_data.hpp:30 | a new queue is empty with exactly the capacity passed |
| Spsc.SpscQueue.TryEmplace | src/sa/audio_data.cpp:10 | the push succeeds exactly when the queue had room; the new contents are the old ones with the copied chunk appended, or unchanged |
| Spsc.SpscQueue.Front | src/sa/audio_data.cpp:14-17 | `front` is null exactly when the queue is empty, otherwise the oldest chunk |
| Spsc.SpscQueue.Pop | src/sa/audio_data.cpp:19 | `pop` removes exactly the oldest chunk |
| Spsc.ReplayIsFifo | src/sa/audio_data.cpp:10-20 | over any interleaving of pushes and takes, the chunks received followed by those still queued are the initial contents followed by every accepted chunk, in push order, and the queue never exceeds its capacity |
| SaAudioData.AudioDataConfig.FrameSize | include/sa/audio_data.hpp:23 | `frame_size` is `capture_channels * frame_count` when the product fits in 64 bits |
| SaAudioData.AudioDataConfig.FrameMaxSize | include/sa/audio_data.hpp:24 | `frame_max_size` is `capture_channels * max_frame_count` when it fits |
| SaAudioData.AudioDataConfig.FrameWindowSize | include/sa/audio_data.hpp:25 | `frame_window_size` is `capture_channels * frame_window` as a signed count when it fits |
| SaAudioData.AudioDataCallback.constructor | include/sa/audio_data.hpp:30 | the callback's queue starts empty with the capacity asked for |
| SaAudioData.AudioDataCallback.Deliver | src/sa/audio_data.cpp:9-11 | a copy of the input is queued when there is room; when full nothing changes |
| SaAudioData.AudioDataCallback.Fetch | src/sa/audio_data.cpp:13-21 | returns false and leaves the output alone on an empty queue; otherwise appends the oldest chunk to the output, pops it and returns true |
| SaAudioData.CreateAudioDataState | src/sa/audio_data.cpp:23-29 | the initial state is an empty sample buffer and `frame_count` zero time-domain values |
| AudioData.NewDataConfig | include/audio/data.hpp:18-32 | the five arguments are stored and the three sizes are the channel products, when they fit |
| AudioData.SizesAgreeWithPrototype | include/audio/data.hpp:30-32 | the visualizer's stored sizes equal the prototype's computed ones for the same arguments, overflow included |
| AudioData.SceneConfigSizes | src/visualizer/scene.cpp:59-65 | the scene's configuration gives frames of 2048 samples, a ceiling of 16384 and a window of 1024 |
| AudioData.DataCallback.constructor | include/audio/data.hpp:49-52 | a new callback's buffer is empty |
| AudioData.DataCallback.Deliver | src/audio/data.cpp:20-27 | the buffer becomes the old buffer followed by the input, growing by exactly its length; the empty-buffer move gives the same result |
| AudioData.DataCallback.TryConsume | include/audio/data.hpp:56-67 | below `frame_size` samples nothing is handed out and nothing changes; otherwise exactly the first `frame_size` samples are handed out and erased, and span followed by buffer is the old buffer |
| AudioData.DeliveredChunkIsACopy | src/audio/data.cpp:18 | writes to the driver's buffer after delivery do not reach the consumer's buffer |
| Miniaudio.BitsOfTypes | src/audio/context.cpp:31-37 | the playback bit is set exactly for playback and duplex, the capture bit exactly for capture and duplex |
| Miniaudio.DeviceConfigInit | src/audio/context.cpp:30 | a fresh configuration has the type set and both directions unset |
| DeviceConfigs.FillDeviceConfig | src/audio/context.cpp:30-46 | playback is filled exactly for playback and duplex, capture exactly for capture, duplex and loopback; each filled section names the chosen descriptor's id with f32 and the caller's channels; the rate, callback and user data are stored |
| DeviceConfigs.SpanArgs | include/audio/context.hpp:39-43 | each callback passes one span of `frame_count * channels` samples of its direction; duplex passes two, output first |
| AudioContext.CreateDevice | src/audio/context.cpp:22-52 | the device layer receives the filled configuration at the data configuration's sample rate, and its result, an error included, is returned unchanged |
| AudioContext.CreatePlaybackDevice | include/audio/context.hpp:33-46 | a playback device is opened with only the playback section filled, from the caller's selection |
| AudioContext.CreateCaptureDevice | include/audio/context.hpp:48-61 | a capture device is opened with only the capture section filled, from the caller's selection |
| AudioContext.CreateDuplexDevice | include/audio/context.hpp:63-79 | a duplex device is opened with both sections, from the two selections in order |
| AudioContext.CreateLoopbackDevice | include/audio/context.hpp:81-94 | a loopback device is opened with only the capture section, from a capture descriptor |
| SaAudioContext.MakeRunningDeviceGuard | src/sa/audio_context.cpp:24-28 | a failed start returns its error and no guard; a successful start returns a guard for that device |
| SaAudioContext.CreateDevice | src/sa/audio_context.cpp:43-69 | the device layer receives the filled configuration at 48000 Hz, and its result is returned unchanged |
| SaAudioContext.SampleRateIsFixed | src/sa/audio_context.cpp:14-15 | whatever the type and selections, the prototype asks for 48000 Hz and f32 in every filled direction |
| SaAudioContext.CreatePlaybackDevice | include/sa/audio_inl.hpp:9-20 | playback passes the playback type with an empty capture selection |
| SaAudioContext.CreateCaptureDevice | include/sa/audio_inl.hpp:22-33 | capture passes the capture type with an empty playback selection |
| SaAudioContext.CreateDuplexDevice | include/sa/audio_inl.hpp:35-48 | duplex passes both selections in order |
| SaAudioContext.CreateLoopbackDevice | include/sa/audio_inl.hpp:50-61 | loopback passes the loopback type with only the capture selection |
| Visualizer.Map | src/visualizer/audio.cpp:96-103 | a transform keeps the length and maps each element in place |
| Visualizer.HalfOf | src/visualizer/audio.cpp:92-94 | the half spectrum is a prefix of the spectrum of length `size / 2` |
| Visualizer.ChannelZero | src/visualizer/audio.cpp:78-80 | element `i` of the time domain is sample `i * capture_channels` of the frame, and the stride covers it |
| Visualizer.ChannelZeroLength | src/visualizer/audio.cpp:78-80 | a frame of `frame_size` samples gives exactly `frame_count` time-domain samples |
| Visualizer.DrainedTimeDomain | src/visualizer/audio.cpp:77-81 | with no frame consumed the time domain keeps its value, otherwise it is channel 0 of the last frame |
| Visualizer.Analyse | src/visualizer/audio.cpp:88-103 | the spectrum is the FFT of the time domain; the half is its lower half; magnitudes and logs are taken element by element over the half |
| Visualizer.Normalised | src/visualizer/audio.cpp:105-109 | each published value is a log magnitude divided by the log of the spectrum's length |
| Visualizer.PublishedLength | src/visualizer/audio.cpp:92-110 | the published output has as many values as the half spectrum, at most half the spectrum |
| Visualizer.DrainFeedsAnalysis | src/visualizer/audio.cpp:77-85 | without overflow, a drain that cut a frame yields `frame_count` samples so the analysis runs; one that cut none keeps the old time domain |
| Visualizer.RenderState.constructor | include/visualizer/render.hpp:34-38 | the published cell starts empty |
| Visualizer.Decide | src/visualizer/audio.cpp:115-125 | no update exactly when neither control was pending; a rebuild exactly when one was pending and both hold values, with those values |
| Visualizer.TypeThenSource | src/visualizer/audio.cpp:196-216 | choosing a type alone never rebuilds, because it resets the source; choosing a source afterwards rebuilds with that type and source, also when an update released the type choice in between |
| Visualizer.ReselectingIsQuiet | src/visualizer/audio.cpp:214 | re-choosing the current source after a release triggers no update |
| Visualizer.InitRecord | src/visualizer/audio.cpp:127-147 | a configuration is handed to the device layer exactly for capture and loopback: only the capture section, from the chosen descriptor with f32 and the configuration's channels, at its sample rate, with the matching callback and the data callback as user data |
| Visualizer.NewHandle | src/visualizer/audio.cpp:127-147 | a supported type is opened with that configuration and the device layer's result is kept; any other type gives `MA_DEVICE_TYPE_NOT_SUPPORTED` |
| Visualizer.StartRunning | src/visualizer/audio.cpp:149-153 | `running` holds a guard exactly when the handle is a device that started, for that device; otherwise the handle's or the start's error |
| Visualizer.RebuildOrder | src/visualizer/audio.cpp:132-153 | a rebuild stops the old device, opens the new one, closes the old handle and starts the new one, in that order and at most once each |
| Visualizer.RebuildCalls | src/visualizer/audio.cpp:133-153 | the stop, close and start calls happen exactly for the old guard's device, the old handle and the new handle |
| Visualizer.RebuildOpens | src/visualizer/audio.cpp:135-147 | a device is opened exactly when the type is supported, with that configuration |
| Visualizer.AudioState.constructor | src/visualizer/audio.cpp:32-47 | the entity starts with a fresh empty callback, no device (`handle` and `running` both the error `MA_SUCCESS`) and empty controls |
| Visualizer.AudioState.ChooseDeviceType | src/visualizer/audio.cpp:197-200 | choosing a type is `set_if_ne` on the type and a reset of the source; the device and the analysis state are untouched |
| Visualizer.AudioState.ChooseCaptureSource | src/visualizer/audio.cpp:212-216 | choosing a source is `set_if_ne` with an index of an existing descriptor; the type, the device and the analysis state are untouched |
| Visualizer.AudioState.UpdateDevice | src/visualizer/audio.cpp:114-154 | both controls are released; without a rebuild nothing about the device changes; with one the handle, the running guard and the calls are those of the rebuild; a guard always belongs to the current handle; the analysis state is untouched |
| Visualizer.AudioState.RebuildDevice | src/visualizer/audio.cpp:127-153 | the handle and guard are those of the rebuild, and the calls its steps record are exactly stop, open, close, start of the rebuild's subjects; a missing or reordered step breaks it |
| Visualizer.AudioState.StopRunning | src/visualizer/audio.cpp:132-133 | dropping the guard stops the device the handle holds, once, and leaves no guard |
| Visualizer.AudioState.OpenHandle | src/visualizer/audio.cpp:135-147 | the new device is opened with the rebuild's configuration exactly when the type is supported |
| Visualizer.AudioState.AssignHandle | src/visualizer/audio.cpp:137-145 | assigning the handle closes the old device, and is only allowed once no guard refers to it |
| Visualizer.AudioState.StartNew | src/visualizer/audio.cpp:149-153 | the new handle's device is started when there is one, and `running` is the guard or the error |
| Visualizer.AudioState.UpdateProcess | src/visualizer/audio.cpp:67-112 | the buffer ends as the drain's remainder; the time domain is channel 0 of the last frame or unchanged; with a wrong-length time domain nothing else changes and nothing is published, otherwise the analysis is stored and, when there is a render state, the normalised output is `set` |
| Prototype.AudioCallback.constructor | src/main.cpp:16-17 | the bridge queue starts empty with capacity 1 |
| Prototype.AudioCallback.Deliver | src/main.cpp:19-21 | a chunk is queued only when the queue is empty; otherwise it is dropped silently |
| Prototype.BridgeDropsWhileFull | src/main.cpp:17-20 | a second chunk delivered before the first was taken is lost |
| Prototype.ExtractTimeDomain | src/main.cpp:61-67 | the time domain has `audio_data_frame_count` elements, element `i` being sample `i * capture_channels`, every read in bounds |
| Prototype.ExtractionIsChannelZero | src/main.cpp:61-67 | the prototype's extraction equals the visualizer's channel-0 stride of the first frame |
| Prototype.ChannelZeroOfFirstFrame | src/main.cpp:61-67 | channel 0 of the first frame has `frame_count` samples, element `i` being sample `i * channels` of the buffer |
| Prototype.FramingStep | src/main.cpp:50-69 | with nothing queued nothing changes; otherwise the chunk is appended and popped, every whole frame's channel 0 is extracted in order, and the buffer ends as the remainder |

## Left out

- The FFT, `std::abs`, `std::log` and the division are uninterpreted functions. Nothing is said about their values, and the FFT's output length is unconstrained.
- `max_element` over the spectrum and the printing of stars in `src/main.cpp` are left out: they are float comparisons and terminal output.
- Prototype.FramingStep models one pass of `main`'s outer loop. The infinite `while (true)` and its busy spin on an empty queue are not modelled.
- Prototype.FramingStep requires `capture_channels > 0`. With 0 channels `audio_data_size` is 0, so the inner loop of `main` never ends and keeps reading `audio_data[0]`. An initialised miniaudio device never reports 0 channels.
- The rest of `main` is left out: listing the capture devices, reading the index from standard input, creating and starting the device. These are I/O and device-layer calls.
- miniaudio is not modelled: context initialisation, device enumeration, `backend_name`, device init, start, stop and uninit. Init and start are opaque functions, and the descriptor lists are given to the contexts as values.
- The stop done when a running guard is released is asserted to succeed in the source. The model records it as a trace event and does not model a failing stop.
- The device handle's uninit on reassignment is only recorded as a trace event.
- The executor hop in `DataCallback::operator()` (`value_as_signal | continue_on | detach`) is left out. Only the sequential effect of the scheduled step is modelled, as if it ran at once.
- The SPSC queue's lock-free ring buffer, its memory ordering and the atomics are left out. The queue is a bounded FIFO sequence. Its capacity is the one passed; the library's own clamping of a zero capacity is not modelled.
- Vector `reserve` calls change only capacity, which is not observable in the model.
- `frame_window_size` and `frame_max_size` are computed and never used by the core. The model likewise does not slide by a window and does not cap the buffer.
- Visualizer.AudioState.UpdateProcess requires `frame_size > 0` and `capture_channels > 0`. With an empty frame the source's drain would hand out empty frames forever, and `stride(0)` is undefined.
- Visualizer.AudioState.UpdateProcess takes the render state as a nullable argument instead of looking it up by entity in the registry.
- Only the published output cell of `RenderState` is modelled. Its other cells belong to rendering.
- The `normalized_freq_domain_output` and `sound_level` fields of the intermediate state are never written by the core and are not modelled.
- The ASSERTs on descriptor indices and on the frame length handed to the drain callable are preconditions or facts proved in the model, not run-time checks.
- Visualizer.AudioState.ChooseDeviceType accepts any device type, although the combo offers only capture and loopback; the other types reach `audio_update_device` only in the model, where they give `MA_DEVICE_TYPE_NOT_SUPPORTED` as in the source's default branch.
- Visualizer.AudioState.ChooseCaptureSource requires the index to name a descriptor. In the source this holds because the combo enumerates the descriptors.
- The ImGui and ImPlot parts of `audio_overlay` are left out: window layout, combo previews, names and the debug plot. Only the two selection actions are modelled.
- Also left out:
  - the ECS registration in `create_audio_entity`;
  - `Context::add_logging` and every `spdlog` call;
  - `src/visualizer/render.cpp` and `src/visualizer/scene.cpp` beyond the scene's data configuration;
  - the `sa` device-controls and debug windows;
  - the example programs.
- DeviceConfigs.SpanArgs gives span lengths from the channel counts it is passed. In the source these are the device's own channel counts, which miniaudio chooses.
