/**
 * A video capturer fed by the application with sample buffers or pixel
 * buffers.  Each frame goes to the capturer's delegate, which either skips it
 * (unsupported pixel format) or later calls back with the frame's source
 * dimensions.  The callback fits those to the configured maximum, makes them
 * encoder-safe, always stores the result as the capturer's `dimensions` and,
 * when the delegate is a video source, asks it to adapt its output format to
 * that width, height and the configured frame rate.
 *
 * The pure functions below say what each step does to a `CapturerState`; the
 * class `Capturer` performs the steps in place and is proved against them.
 */
module BufferCapturer {
  import opened Numeric
  import opened Wrappers
  import opened VideoDimensions

  /** What the capturer's delegate is: absent (weak reference gone), a video source, or something else. */
  datatype DelegateKind = NoDelegate | VideoSource | OtherDelegate

  datatype Rotation = Rotation0 | Rotation90 | Rotation180 | Rotation270

  /** A frame as the delegate receives it; a pixel buffer carries its timestamp and rotation. */
  datatype Frame = SampleBuffer | PixelBuffer(timeStampNs: int64, rotation: Rotation)

  /** What the delegate does with a frame: skip it, or call back with its source dimensions. */
  datatype DelegateVerdict = Skipped | Resolved(source: Dimensions)

  /** `BufferCaptureOptions`: the maximum dimensions and the frame rate. */
  datatype CaptureOptions = CaptureOptions(dimensions: Dimensions, fps: int64)

  /** One `adaptOutputFormat(toWidth:height:fps:)` call on the video source. */
  datatype AdaptCall = AdaptCall(width: int32, height: int32, fps: int32)

  /**
   * The dimension operations the callback composes; their definitions lie
   * outside this model, so they are left uninterpreted: `maxSide` is
   * `Dimensions.max`, `aspectFit` is `Dimensions.aspectFit(size:)` and
   * `toEncodeSafe` is `Dimensions.toEncodeSafeDimensions()`.
   */
  datatype Sizing = Sizing(
    maxSide: Dimensions -> int32,
    aspectFit: (Dimensions, int32) -> Dimensions,
    toEncodeSafe: Dimensions -> Dimensions)

  /**
   * Everything the capturer's operations read or write.  `pending` holds, in
   * submission order, the source dimensions of the callbacks the delegate has
   * been handed and has not yet run; `forwarded` and `adaptLog` record the
   * calls made on the delegate.
   */
  datatype CapturerState = CapturerState(
    options: CaptureOptions,
    delegate: DelegateKind,
    dimensions: Option<Dimensions>,
    pending: seq<Dimensions>,
    forwarded: seq<Frame>,
    adaptLog: seq<AdaptCall>)

  /** The size a frame of `source` dimensions is delivered at under `options`. */
  function TargetDimensions(sizing: Sizing, source: Dimensions, options: CaptureOptions): Dimensions {
    sizing.toEncodeSafe(sizing.aspectFit(source, sizing.maxSide(options.dimensions)))
  }

  /** The adapt call a callback for `source` makes; `Int32(options.fps)` must not trap. */
  function AdaptFor(sizing: Sizing, source: Dimensions, options: CaptureOptions): AdaptCall
    requires InInt32(options.fps as int)
  {
    var target := TargetDimensions(sizing, source, options);
    AdaptCall(target.width, target.height, options.fps as int32)
  }

  /** The one thing that can trap in a callback: converting the frame rate when the delegate is a video source. */
  predicate CallbackSafe(s: CapturerState) {
    s.delegate.VideoSource? ==> InInt32(s.options.fps as int)
  }

  /**
   * `capture(_:)` and `capture(_:timeStampNs:rotation:)`: hand `frame` to the
   * delegate, if there is one; the delegate's verdict decides whether a
   * callback is registered.  Nothing the callback writes is touched here.
   */
  function Capture(s: CapturerState, frame: Frame, verdict: DelegateVerdict): (r: CapturerState)
    ensures r.options == s.options && r.delegate == s.delegate
    ensures r.dimensions == s.dimensions && r.adaptLog == s.adaptLog
    ensures r.forwarded == if s.delegate.NoDelegate? then s.forwarded else s.forwarded + [frame]
    ensures r.pending == if !s.delegate.NoDelegate? && verdict.Resolved? then s.pending + [verdict.source] else s.pending
    ensures s.delegate.NoDelegate? ==> r == s
  {
    if s.delegate.NoDelegate? then s
    else
      var registered := if verdict.Resolved? then s.pending + [verdict.source] else s.pending;
      s.(forwarded := s.forwarded + [frame], pending := registered)
  }

  /**
   * The callback body for a frame of `source` dimensions, reading the options
   * and the delegate as they are when it runs.
   */
  function Resolve(sizing: Sizing, s: CapturerState, source: Dimensions): (r: CapturerState)
    requires CallbackSafe(s)
    ensures r.dimensions == Some(TargetDimensions(sizing, source, s.options))
    ensures s.delegate.VideoSource? ==> r.adaptLog == s.adaptLog + [AdaptFor(sizing, source, s.options)]
    ensures !s.delegate.VideoSource? ==> r.adaptLog == s.adaptLog
    ensures r.options == s.options && r.delegate == s.delegate
    ensures r.pending == s.pending && r.forwarded == s.forwarded
    ensures CallbackSafe(r)
  {
    var target := TargetDimensions(sizing, source, s.options);
    var log := if s.delegate.VideoSource? then s.adaptLog + [AdaptFor(sizing, source, s.options)] else s.adaptLog;
    s.(adaptLog := log, dimensions := Some(target))
  }

  /** The delegate runs the `k`-th pending callback; callbacks may complete in any order. */
  function Complete(sizing: Sizing, s: CapturerState, k: nat): (r: CapturerState)
    requires k < |s.pending| && CallbackSafe(s)
    ensures r.pending == s.pending[..k] + s.pending[k + 1..]
    ensures |r.pending| == |s.pending| - 1
    ensures r.dimensions == Some(TargetDimensions(sizing, s.pending[k], s.options))
    ensures s.delegate.VideoSource? ==> r.adaptLog == s.adaptLog + [AdaptFor(sizing, s.pending[k], s.options)]
    ensures !s.delegate.VideoSource? ==> r.adaptLog == s.adaptLog
    ensures r.options == s.options && r.delegate == s.delegate && r.forwarded == s.forwarded
  {
    Resolve(sizing, s.(pending := s.pending[..k] + s.pending[k + 1..]), s.pending[k])
  }

  /**
   * Running a pending callback has exactly the effect of the callback body
   * for its source, apart from taking it off the pending list; so the lemmas
   * about `RunCallbacks` apply to callbacks however the delegate fires them.
   */
  lemma CompleteIsResolve(sizing: Sizing, s: CapturerState, k: nat)
    requires k < |s.pending| && CallbackSafe(s)
    ensures Complete(sizing, s, k).(pending := s.pending) == Resolve(sizing, s, s.pending[k])
  {
  }

  /** Callbacks for `sources` running one after another, in this order. */
  function RunCallbacks(sizing: Sizing, s: CapturerState, sources: seq<Dimensions>): CapturerState
    requires CallbackSafe(s)
    decreases |sources|
  {
    if sources == [] then s
    else RunCallbacks(sizing, Resolve(sizing, s, sources[0]), sources[1..])
  }

  /** The adapt calls that callbacks for `sources` make on a video source. */
  function AdaptCallsFor(sizing: Sizing, sources: seq<Dimensions>, options: CaptureOptions): seq<AdaptCall>
    requires InInt32(options.fps as int)
    decreases |sources|
  {
    if sources == [] then []
    else [AdaptFor(sizing, sources[0], options)] + AdaptCallsFor(sizing, sources[1..], options)
  }

  /** Callbacks never change the options, the delegate, the pending callbacks or the frames forwarded. */
  lemma {:induction false} CallbacksKeepConfiguration(sizing: Sizing, s: CapturerState, sources: seq<Dimensions>)
    requires CallbackSafe(s)
    ensures var r := RunCallbacks(sizing, s, sources);
      r.options == s.options && r.delegate == s.delegate &&
      r.pending == s.pending && r.forwarded == s.forwarded
    decreases |sources|
  {
    if sources != [] {
      CallbacksKeepConfiguration(sizing, Resolve(sizing, s, sources[0]), sources[1..]);
    }
  }

  /** After a run of callbacks the stored dimensions are the target of the one that completed last. */
  lemma {:induction false} LastCallbackWins(sizing: Sizing, s: CapturerState, sources: seq<Dimensions>)
    requires CallbackSafe(s) && sources != []
    ensures RunCallbacks(sizing, s, sources).dimensions
         == Some(TargetDimensions(sizing, sources[|sources| - 1], s.options))
    decreases |sources|
  {
    if |sources| > 1 {
      LastCallbackWins(sizing, Resolve(sizing, s, sources[0]), sources[1..]);
    }
  }

  /** Dimensions are known after a run of callbacks exactly when they were before or some callback ran. */
  lemma {:induction false} DimensionsKnownIff(sizing: Sizing, s: CapturerState, sources: seq<Dimensions>)
    requires CallbackSafe(s)
    ensures RunCallbacks(sizing, s, sources).dimensions.Some? <==> s.dimensions.Some? || sources != []
    decreases |sources|
  {
    if sources != [] {
      DimensionsKnownIff(sizing, Resolve(sizing, s, sources[0]), sources[1..]);
    }
  }

  /**
   * Each callback adapts a video source exactly once, in completion order,
   * with that callback's target and the configured frame rate; any other
   * delegate is never asked to adapt.
   */
  lemma {:induction false} AdaptLogOfCallbacks(sizing: Sizing, s: CapturerState, sources: seq<Dimensions>)
    requires CallbackSafe(s)
    ensures s.delegate.VideoSource? ==>
      RunCallbacks(sizing, s, sources).adaptLog == s.adaptLog + AdaptCallsFor(sizing, sources, s.options)
    ensures !s.delegate.VideoSource? ==> RunCallbacks(sizing, s, sources).adaptLog == s.adaptLog
    decreases |sources|
  {
    if sources != [] {
      var s1 := Resolve(sizing, s, sources[0]);
      AdaptLogOfCallbacks(sizing, s1, sources[1..]);
      if s.delegate.VideoSource? {
        assert AdaptCallsFor(sizing, sources, s.options)
            == [AdaptFor(sizing, sources[0], s.options)] + AdaptCallsFor(sizing, sources[1..], s.options);
      }
    }
  }

  /** A skipped frame registers no callback: later callbacks behave as if it had never been captured. */
  lemma SkippedFrameLeavesCallbacks(s: CapturerState, frame: Frame)
    ensures Capture(s, frame, Skipped).(forwarded := s.forwarded) == s
  {
  }

  /**
   * The two capture paths differ only in the frame the delegate receives: the
   * callbacks they register, and so what those callbacks later write and ask
   * for, are the same.
   */
  lemma {:induction false} CapturePathsAgree(sizing: Sizing, s: CapturerState, verdict: DelegateVerdict,
                                             timeStampNs: int64, rotation: Rotation, later: seq<Dimensions>)
    requires CallbackSafe(s)
    ensures var viaSample := RunCallbacks(sizing, Capture(s, SampleBuffer, verdict), later);
      var viaPixel := RunCallbacks(sizing, Capture(s, PixelBuffer(timeStampNs, rotation), verdict), later);
      viaSample.(forwarded := []) == viaPixel.(forwarded := [])
  {
    var a := Capture(s, SampleBuffer, verdict);
    var b := Capture(s, PixelBuffer(timeStampNs, rotation), verdict);
    assert a.(forwarded := []) == b.(forwarded := []);
    RunCallbacksIgnoresForwarded(sizing, a, b, later);
  }

  /** Callbacks neither read nor write the record of forwarded frames. */
  lemma {:induction false} RunCallbacksIgnoresForwarded(sizing: Sizing, a: CapturerState, b: CapturerState,
                                                        sources: seq<Dimensions>)
    requires CallbackSafe(a) && a.(forwarded := []) == b.(forwarded := [])
    ensures RunCallbacks(sizing, a, sources).(forwarded := []) == RunCallbacks(sizing, b, sources).(forwarded := [])
    decreases |sources|
  {
    if sources != [] {
      RunCallbacksIgnoresForwarded(sizing, Resolve(sizing, a, sources[0]), Resolve(sizing, b, sources[0]), sources[1..]);
    }
  }

  /**
   * Two frames A then B are captured; B's callback completes first, then A's.
   * The stored dimensions are A's target: the last completion wins, whatever
   * the submission order.
   */
  lemma RaceLastCompletionWins(sizing: Sizing, s: CapturerState, a: Dimensions, b: Dimensions, fa: Frame, fb: Frame)
    requires CallbackSafe(s) && !s.delegate.NoDelegate?
    ensures var s1 := Capture(Capture(s, fa, Resolved(a)), fb, Resolved(b));
      var n := |s.pending|;
      |s1.pending| == n + 2 &&
      var s2 := Complete(sizing, s1, n + 1);
      var s3 := Complete(sizing, s2, n);
      s3.dimensions == Some(TargetDimensions(sizing, a, s.options)) && s3.pending == s.pending
  {
  }

  /**
   * `BufferCapturer`.  `options` is public and may be reassigned at any time;
   * `dimensions` (declared by the superclass) is absent until the first
   * callback stores a value.  The pending callbacks, the frames forwarded and
   * the adapt calls stand for what the delegate holds and receives.
   */
  class Capturer {
    const sizing: Sizing
    var options: CaptureOptions
    var delegate: DelegateKind
    var dimensions: Option<Dimensions>
    var pending: seq<Dimensions>
    ghost var forwarded: seq<Frame>
    ghost var adaptLog: seq<AdaptCall>

    ghost function State(): CapturerState
      reads this
    {
      CapturerState(options, delegate, dimensions, pending, forwarded, adaptLog)
    }

    /** `init(delegate:options:)`: the delegate it is given is always present. */
    constructor (sizing: Sizing, delegate: DelegateKind, options: CaptureOptions)
      requires !delegate.NoDelegate?
      ensures this.sizing == sizing
      ensures State() == CapturerState(options, delegate, None, [], [], [])
    {
      this.sizing := sizing;
      this.options := options;
      this.delegate := delegate;
      dimensions := None;
      pending := [];
      forwarded := [];
      adaptLog := [];
    }

    /** Hands the delegate `frame`; `verdict` is what the delegate then decides about it. */
    method DidCapture(frame: Frame, verdict: DelegateVerdict)
      modifies this
      ensures State() == Capture(old(State()), frame, verdict)
    {
      if !delegate.NoDelegate? {
        forwarded := forwarded + [frame];
        if verdict.Resolved? {
          pending := pending + [verdict.source];
        }
      }
    }

    /** `capture(_ sampleBuffer:)`. */
    method CaptureSampleBuffer(verdict: DelegateVerdict)
      modifies this
      ensures State() == Capture(old(State()), SampleBuffer, verdict)
    {
      DidCapture(SampleBuffer, verdict);
    }

    /**
     * `capture(_ pixelBuffer:timeStampNs:rotation:)`.  The default timestamp
     * comes from a clock, so the caller supplies it here; the rotation
     * defaults to 0 degrees.  Both reach the delegate unchanged.
     */
    method CapturePixelBuffer(verdict: DelegateVerdict, timeStampNs: int64, rotation: Rotation := Rotation0)
      modifies this
      ensures State() == Capture(old(State()), PixelBuffer(timeStampNs, rotation), verdict)
    {
      DidCapture(PixelBuffer(timeStampNs, rotation), verdict);
    }

    /**
     * The callback body.  The store of `dimensions` is deferred, so it
     * happens whether or not the delegate turns out to be a video source.
     */
    method OnResolved(source: Dimensions)
      requires CallbackSafe(State())
      modifies this
      ensures State() == Resolve(sizing, old(State()), source)
    {
      var target := TargetDimensions(sizing, source, options);
      if delegate.VideoSource? {
        adaptLog := adaptLog + [AdaptCall(target.width, target.height, options.fps as int32)];
      }
      dimensions := Some(target);
    }

    /** The delegate runs the `k`-th pending callback. */
    method Deliver(k: nat)
      requires k < |pending| && CallbackSafe(State())
      modifies this
      ensures State() == Complete(sizing, old(State()), k)
    {
      var source := pending[k];
      pending := pending[..k] + pending[k + 1..];
      OnResolved(source);
    }

    /** Assigning the public `options` property; nothing else changes. */
    method SetOptions(newOptions: CaptureOptions)
      modifies this
      ensures State() == old(State()).(options := newOptions)
    {
      options := newOptions;
    }

    /** The delegate can change, or the weak reference to it go away. */
    method SetDelegate(newDelegate: DelegateKind)
      modifies this
      ensures State() == old(State()).(delegate := newDelegate)
    {
      delegate := newDelegate;
    }
  }

  /**
   * A capturer for a video source captures frames of `a` and then `b`
   * dimensions; the delegate completes `b`'s callback first.  The capturer
   * ends with `a`'s target dimensions, having asked the source to adapt to
   * `b`'s target and then to `a`'s.
   */
  method RaceScenario(sizing: Sizing, options: CaptureOptions, a: Dimensions, b: Dimensions, timeStampNs: int64)
    returns (dimensions: Option<Dimensions>, ghost adapted: seq<AdaptCall>)
    requires InInt32(options.fps as int)
    ensures dimensions == Some(TargetDimensions(sizing, a, options))
    ensures adapted == [AdaptFor(sizing, b, options), AdaptFor(sizing, a, options)]
  {
    var capturer := new Capturer(sizing, VideoSource, options);
    capturer.CaptureSampleBuffer(Resolved(a));
    capturer.CapturePixelBuffer(Resolved(b), timeStampNs);
    capturer.Deliver(1);
    capturer.Deliver(0);
    dimensions := capturer.dimensions;
    adapted := capturer.adaptLog;
  }
}
