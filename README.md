# LiveKit Swift SDK: buffer capturer, track settings, data-channel info

A Dafny model of three small pieces of the LiveKit client SDK for Swift.

- **`BufferCapturer`** (`buffer_capturer.dfy`). The application feeds this video capturer with sample buffers or pixel buffers. Each frame goes to the capturer's delegate. The delegate either skips the frame (unsupported pixel format) or later calls back with the frame's source dimensions. The callback computes `toEncodeSafeDimensions(aspectFit(source, size: options.dimensions.max))`. It always stores the result in the capturer's `dimensions`. When the delegate is a video source, it also calls `adaptOutputFormat` with the target width, the target height and `Int32(options.fps)`.
  - The pure functions `Capture`, `Resolve` and `Complete` describe each step as a change to a `CapturerState` value.
  - The class `Capturer` does the same steps in place. Each of its methods is proved to produce `State()` equal to the matching function applied to the old state.
  - Lemmas over runs of callbacks prove three things: the callback that completes last decides the stored dimensions, each callback makes exactly one adapt call and only on a video source, and the two capture paths have the same effects.
- **`TrackSettings`** (`track_settings.dfy`). An immutable value with four fields: enabled, dimensions, video quality and preferred FPS. Its initializer has defaults. `copyWith` overrides only the fields it is given. Equality compares the fields.
- **`toLKInfoType`** (`data_channel.dfy`). Maps a data channel's id and label to the signalling protocol's `DataChannelInfo` record. A negative id is clamped to 0 before the conversion to `UInt32`. The module also holds the two channel labels, `"_reliable"` and `"_lossy"`.

Supporting modules: `numeric.dfy` holds the fixed-width integer types (`int32`, `int64`, `uint32`, `uint64`). `wrappers.dfy` holds `Option` and Swift's `??`. `dimensions.dfy` holds `Dimensions` and `Dimensions.zero`.

Modelling choices:
- Asynchrony is modelled with a `pending` list. A capture whose frame the delegate accepts appends the source dimensions the delegate will report. `Deliver(k)` / `Complete` runs the `k`-th pending callback, chosen freely, so callbacks can complete in any order. Each callback reads `options` and the delegate as they are when it runs, as the Swift closure does.
- The delegate's decision about a frame is an input (`DelegateVerdict`: `Skipped` or `Resolved(source)`). So is the clock-based default timestamp of the pixel-buffer path.
- `aspectFit(size:)`, `toEncodeSafeDimensions()` and `Dimensions.max` are defined outside the modelled files. They are uninterpreted function values in a `Sizing` record. Nothing is assumed about them: not evenness, not bounds, not aspect ratio.
- The width and height of `Dimensions` are `int32`: `adaptOutputFormat` takes them as `Int32` with no conversion. `options.fps` is a Swift `Int` (`int64`). `Int32(options.fps)` traps when out of range, and that conversion only runs when the delegate is a video source. `CallbackSafe` states exactly this as a precondition of the callback.
- The superclass `VideoCapturer` is not part of this model. It declares `delegate` and `dimensions`. Here `dimensions` is `Option<Dimensions>`, absent until the first callback. The delegate is `NoDelegate`, `VideoSource` or `OtherDelegate`.
- `VideoQuality` (not part of this model) is taken to be `low | medium | high`.
- The generated `Livekit_DataChannelInfo` is not part of this model. It is taken to be `label`, `id` and `target` (a `SignalTarget`, default `publisher`), every field starting at its protocol default. `label` is a Dafny keyword, so the field is called `channelLabel`.
- `aspectFit(size:)` takes a single side length, `options.dimensions.max` (BufferCapturer.swift:47), not a bounding box.

## Model

| member | source | states |
|---|---|---|
| `BufferCapturer.Capture` | Sources/LiveKit/Track/Capturers/BufferCapturer.swift:43-44 | with no delegate nothing changes; otherwise the frame reaches the delegate, a callback is registered only if the frame is not skipped, and `dimensions`, the adapt log and `options` are untouched |
| `BufferCapturer.Resolve` | Sources/LiveKit/Track/Capturers/BufferCapturer.swift:46-55 | the callback stores the target computed from the options in effect when it runs, whatever the delegate is; it appends exactly one adapt call (target width, target height, `Int32(options.fps)`) when the delegate is a video source and none otherwise; options, delegate and pending callbacks are unchanged |
| `BufferCapturer.Complete` | Sources/LiveKit/Track/Capturers/BufferCapturer.swift:44-56 | running any one pending callback removes exactly that one and has the callback's effect for its source |
| `BufferCapturer.CallbacksKeepConfiguration` | Sources/LiveKit/Track/Capturers/BufferCapturer.swift:35-56 | no number of callbacks changes `options`, the delegate, the pending callbacks or the forwarded frames; only assignment changes options |
| `BufferCapturer.LastCallbackWins` | Sources/LiveKit/Track/Capturers/BufferCapturer.swift:46-50 | after any run of callbacks, `dimensions` is the target of the last one to complete |
| `BufferCapturer.DimensionsKnownIff` | Sources/LiveKit/Track/Capturers/BufferCapturer.swift:28-29 | dimensions are known after a run of callbacks if and only if they were known before or at least one callback ran |
| `BufferCapturer.AdaptLogOfCallbacks` | Sources/LiveKit/Track/Capturers/BufferCapturer.swift:52-55 | a video source receives one adapt call per callback, in completion order, each with that callback's target and the fps; any other delegate receives none |
| `BufferCapturer.SkippedFrameLeavesCallbacks` | Sources/LiveKit/Track/Capturers/BufferCapturer.swift:25 | a skipped frame registers no callback and changes nothing but the record of frames handed to the delegate |
| `BufferCapturer.CapturePathsAgree` | Sources/LiveKit/Track/Capturers/BufferCapturer.swift:68-80 | for any later run of callbacks, capturing through the sample-buffer or the pixel-buffer path leads to the same dimensions, adapt log, options and pending callbacks |
| `BufferCapturer.CompleteIsResolve` | Sources/LiveKit/Track/Capturers/BufferCapturer.swift:44-56 | running any pending callback has exactly the callback body's effect for its source, apart from removing it from the pending list |
| `BufferCapturer.RunCallbacksIgnoresForwarded` | Sources/LiveKit/Track/Capturers/BufferCapturer.swift:44-56 | callbacks neither read nor write the frames handed to the delegate |
| `BufferCapturer.RaceLastCompletionWins` | Sources/LiveKit/Track/Capturers/BufferCapturer.swift:50 | frame A is captured before B, and B's callback completes first: the stored dimensions are A's target and no callback is left pending |
| `BufferCapturer.RaceScenario` | Sources/LiveKit/Track/Capturers/BufferCapturer.swift:43-80 | the same race on a `Capturer` object through its methods: the capturer ends with A's target, and the video source was asked to adapt to B's target and then to A's |
| `BufferCapturer.Capturer.constructor` | Sources/LiveKit/Track/Capturers/BufferCapturer.swift:37-40 | a new capturer holds the given delegate and options, has no dimensions and has made no delegate calls |
| `BufferCapturer.Capturer.DidCapture` | Sources/LiveKit/Track/Capturers/BufferCapturer.swift:44 | hands the frame to the delegate if there is one, with the effect of `Capture` |
| `BufferCapturer.Capturer.CaptureSampleBuffer` | Sources/LiveKit/Track/Capturers/BufferCapturer.swift:43-44 | the new state is `Capture` of the old state with a sample buffer |
| `BufferCapturer.Capturer.CapturePixelBuffer` | Sources/LiveKit/Track/Capturers/BufferCapturer.swift:60-67 | the new state is `Capture` with a pixel buffer that carries the given timestamp and rotation unchanged; the rotation defaults to 0 degrees |
| `BufferCapturer.Capturer.OnResolved` | Sources/LiveKit/Track/Capturers/BufferCapturer.swift:46-55 | the new state is `Resolve` of the old: deferred store of `dimensions` on both exits, adapt call only on a video source |
| `BufferCapturer.Capturer.Deliver` | Sources/LiveKit/Track/Capturers/BufferCapturer.swift:44-68 | the delegate runs the chosen pending callback; the new state is `Complete` of the old |
| `BufferCapturer.Capturer.SetOptions` | Sources/LiveKit/Track/Capturers/BufferCapturer.swift:35 | assigning `options` changes only `options` |
| `BufferCapturer.Capturer.SetDelegate` | Sources/LiveKit/Track/Capturers/BufferCapturer.swift:52 | changing the delegate changes only the delegate, which later callbacks inspect when they run |
| `TrackSettingsModel.Init` | Sources/LiveKit/Types/TrackSettings.swift:25-33 | each argument is stored in its matching field and nothing else |
| `TrackSettingsModel.DefaultInit` | Sources/LiveKit/Types/TrackSettings.swift:25-28 | with no arguments: disabled, zero dimensions, low quality, preferred FPS 0 |
| `TrackSettingsModel.TrackSettings.CopyWith` | Sources/LiveKit/Types/TrackSettings.swift:36-45 | each supplied field takes the supplied value; each omitted field keeps the receiver's |
| `TrackSettingsModel.EqualityIsStructural` | Sources/LiveKit/Types/TrackSettings.swift:19-23 | two settings are equal if and only if all four fields are equal |
| `TrackSettingsModel.CopyWithNothingIsIdentity` | Sources/LiveKit/Types/TrackSettings.swift:36-45 | `copyWith()` returns a value equal to the receiver |
| `TrackSettingsModel.CopyWithOneField` | Sources/LiveKit/Types/TrackSettings.swift:41-44 | supplying exactly one field changes that field and keeps the other three, for each of the four fields |
| `TrackSettingsModel.ToggleEnabledChangesValue` | Sources/LiveKit/Types/TrackSettings.swift:41 | flipping `isEnabled` yields a value that is not equal to the original |
| `TrackSettingsModel.CopyWithIdempotent` | Sources/LiveKit/Types/TrackSettings.swift:41-44 | applying the same overrides twice equals applying them once |
| `TrackSettingsModel.CopyWithComposes` | Sources/LiveKit/Types/TrackSettings.swift:41-44 | two successive copies are one copy in which each field comes from the later overrides, falling back to the earlier |
| `DataChannel.ClampedId` | Sources/LiveKit/Extensions/RTCDataChannel+Util.swift:29 | the id is the channel id when that is non-negative and 0 otherwise; it always fits in `UInt32` (below 2^31), so the conversion cannot trap |
| `DataChannel.ToInfo` | Sources/LiveKit/Extensions/RTCDataChannel+Util.swift:27-31 | the record holds the clamped id and the label unchanged; every other field keeps its default |
| `DataChannel.LabelsDistinct` | Sources/LiveKit/Extensions/RTCDataChannel+Util.swift:22-25 | the labels are `"_reliable"` and `"_lossy"`, and they differ |

## Left out

- `LocalVideoTrack.createBufferTrack`: construction wiring over the engine and WebRTC objects, with no logic of its own.
- The bodies of `aspectFit(size:)`, `toEncodeSafeDimensions()` and `Dimensions.max`: they are not among the modelled files. They stay uninterpreted, so nothing is proved about evenness, bounds or aspect ratio of the target.
- `VideoCapturer.createTimeStampNs()`: it reads a clock. The pixel-buffer path takes the timestamp as an argument.
- The delegate's pixel-format check and the frame contents (`CMSampleBuffer`, `CVPixelBuffer`): foreign CoreMedia/WebRTC code. Only the outcome is modelled, skipped or resolved with source dimensions.
- `VideoRotation.toRTCType()`: the WebRTC rotation enum is not modelled. The rotation reaches the delegate as the model's own `Rotation`.
- Concurrency: capture calls and callbacks are sequential method calls. Callbacks completing in any order is modelled. Simultaneous writes to `dimensions`, and `options` changing while a callback runs, are not.
- The superclass's reaction to a change of `dimensions`, such as notifying its own delegates: `VideoCapturer` is not part of this model.
- `BufferCapturer.Capturer.OnResolved`: a video-source callback whose `options.fps` does not fit in `Int32` traps in Swift. The model excludes that case by precondition (`CallbackSafe`) instead of modelling the crash.
- `Hashable` hash values: only equality is modelled. Hashing consistency comes from the language, not from this code.
- Protobuf serialization of `Livekit_DataChannelInfo`: generated code. The record is a plain datatype.
- Real `RTCDataChannel` objects: their `channelId` (`Int32`) and `label` are plain inputs.
