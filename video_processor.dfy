/** Frame extraction (app/services/video_processor.py): read the container's
    metadata, then decode the video from the start and keep every
    `frame_skip`-th frame, converted to RGB, passed through the optional
    enhancer and stamped with its time in seconds. The generator is modelled
    as the whole stream it yields plus the exception, if any, that ends it. */
module VideoProcessing {
  import opened PyBuiltins
  import opened OpenCv
  import opened FrameEnhancement
  import opened Arithmetic

  datatype VideoFrame = VideoFrame(image: Image, frameNumber: int, timestampSec: real)

  datatype VideoMetadata = VideoMetadata(fps: real, totalFrames: int, width: int, height: int, durationSec: real)

  /** The `VideoProcessingError`s and the exceptions that escape `extract_frames`. */
  datatype VideoError =
    | CannotOpen(path: string)            // "Cannot open video: ..."
    | InvalidFps(fps: real)               // "Invalid FPS (...) in video"
    | ZeroTargetFps                       // ZeroDivisionError from fps / target_fps
    | EnhanceFailed(cause: EnhanceError)  // raised by the enhancer mid-stream

  /** What a consumer of the generator sees: the frames yielded, in order,
      then either exhaustion (`None`) or the exception that was raised. */
  datatype FrameStream = FrameStream(frames: seq<VideoFrame>, failure: Option<VideoError>)

  /** The metadata of an open video: integer properties truncated with
      `int()`, and the duration zero when the frame rate is not positive. */
  function MetadataOf(file: VideoFile): VideoMetadata
  {
    var total := Trunc(file.frameCount);
    VideoMetadata(
      fps := file.fps,
      totalFrames := total,
      width := Trunc(file.width),
      height := Trunc(file.height),
      durationSec := if file.fps > 0.0 then total as real / file.fps else 0.0)
  }

  /** What `get_metadata` returns or raises. */
  function MetadataResult(files: Files, path: string): Result<VideoMetadata, VideoError>
  {
    if path in files && files[path].opens then Ok(MetadataOf(files[path]))
    else Err(CannotOpen(path))
  }

  /** `max(1, int(fps / target_fps))`, which raises when the target is zero. */
  function FrameSkip(fps: real, targetFps: real): (r: Result<int, VideoError>)
    ensures r.Err? <==> targetFps == 0.0
    ensures r.Ok? ==> r.value >= 1
  {
    if targetFps == 0.0 then Err(ZeroTargetFps)
    else
      var k := Trunc(fps / targetFps);
      Ok(if k > 1 then k else 1)
  }

  /** Whether frame `i` is one the loop keeps. */
  predicate IsSampled(i: int, skip: int)
    requires skip >= 1
  {
    i % skip == 0
  }

  /** The frame handed on for frame `i`: RGB, then enhanced when there is an
      enhancer with configuration `config`. */
  function Processed(path: string, file: VideoFile, config: Option<EnhancementConfig>, i: int): Result<Image, EnhanceError>
  {
    var rgb := BgrToRgb(DecodedFrame(path, file, i));
    if config.None? then Ok(rgb) else Enhanced(config.value, rgb)
  }

  /** The stream the decoding loop yields from frame number `from` on. */
  function Sampled(path: string, file: VideoFile, skip: int, config: Option<EnhancementConfig>, from: nat): FrameStream
    requires skip >= 1 && file.fps > 0.0
    decreases file.decodable - from
  {
    if from >= file.decodable then FrameStream([], None)
    else if !IsSampled(from, skip) then Sampled(path, file, skip, config, from + 1)
    else
      match Processed(path, file, config, from)
      case Err(e) => FrameStream([], Some(EnhanceFailed(e)))
      case Ok(image) =>
        var rest := Sampled(path, file, skip, config, from + 1);
        FrameStream([VideoFrame(image, from, from as real / file.fps)] + rest.frames, rest.failure)
  }

  /** What a full iteration of `extract_frames(path)` yields and raises. */
  function Extraction(files: Files, path: string, targetFps: real, config: Option<EnhancementConfig>): FrameStream
  {
    match MetadataResult(files, path)
    case Err(e) => FrameStream([], Some(e))
    case Ok(md) =>
      if md.fps <= 0.0 then FrameStream([], Some(InvalidFps(md.fps)))
      else
        match FrameSkip(md.fps, targetFps)
        case Err(e) => FrameStream([], Some(e))
        case Ok(skip) => Sampled(path, files[path], skip, config, 0)
  }

  class VideoProcessor {
    const targetFps: real
    const enhancer: FrameEnhancer?

    ghost predicate Valid()
      reads this, enhancer
    {
      enhancer != null ==> enhancer.Valid()
    }

    /** The configuration frames are enhanced with, if there is an enhancer. */
    function EnhancerConfig(): Option<EnhancementConfig>
    {
      if enhancer == null then None else Some(enhancer.config)
    }

    constructor (targetFps: real := 5.0, enhancer: FrameEnhancer? := null)
      requires enhancer != null ==> enhancer.Valid()
      ensures this.targetFps == targetFps && this.enhancer == enhancer
      ensures Valid()
    {
      this.targetFps := targetFps;
      this.enhancer := enhancer;
    }

    /** `get_metadata`: the capture is released on the way out whenever it
        was opened. */
    method GetMetadata(files: Files, path: string, io: Io) returns (r: Result<VideoMetadata, VideoError>)
      modifies io
      ensures r == MetadataResult(files, path)
      ensures io.openHandles == old(io.openHandles) && io.log == old(io.log)
    {
      var cap := new Capture(files, path, io);
      if !cap.IsOpened() {
        return Err(CannotOpen(path));
      }
      var file := cap.file.value;
      var fps := file.fps;
      var total := Trunc(file.frameCount);
      var w := Trunc(file.width);
      var h := Trunc(file.height);
      var duration := if fps > 0.0 then total as real / fps else 0.0;
      r := Ok(VideoMetadata(fps, total, w, h, duration));
      cap.Release();
    }

    /** `extract_frames`, run to the end: the frames it yields, and the
        error that stops it if one does. Every capture it opens is released. */
    method ExtractFrames(files: Files, path: string, io: Io) returns (stream: FrameStream)
      requires Valid()
      modifies io, enhancer
      ensures Valid()
      ensures stream == Extraction(files, path, targetFps, EnhancerConfig())
      ensures io.openHandles == old(io.openHandles) && io.log == old(io.log)
    {
      var md := GetMetadata(files, path, io);
      if md.Err? {
        return FrameStream([], Some(md.error));
      }
      var fps := md.value.fps;
      if fps <= 0.0 {
        return FrameStream([], Some(InvalidFps(fps)));
      }
      var skipped := FrameSkip(fps, targetFps);
      if skipped.Err? {
        return FrameStream([], Some(skipped.error));
      }
      var skip := skipped.value;
      // The file has not changed since `get_metadata` opened it, so the
      // reopened capture is open too.
      var cap := new Capture(files, path, io);
      stream := SampleFrames(cap, io, path, files[path], skip);
    }

    /** The decoding loop of `extract_frames` on an open capture: it yields
        what `Sampled` says from frame 0 on and releases the capture. */
    method SampleFrames(cap: Capture, io: Io, path: string, file: VideoFile, skip: int) returns (stream: FrameStream)
      requires Valid() && skip >= 1 && file.fps > 0.0
      requires cap.io == io && cap.path == path && cap.file == Some(file) && !cap.released && cap.pos == 0
      modifies cap, io, enhancer
      ensures Valid()
      ensures stream == Sampled(path, file, skip, EnhancerConfig(), 0)
      ensures io.openHandles == old(io.openHandles) - 1 && io.log == old(io.log)
    {
      var frameNumber := 0;
      var frames: seq<VideoFrame> := [];
      while cap.IsOpened()
        invariant cap.io == io && cap.path == path && cap.file == Some(file) && !cap.released
        invariant cap.pos == frameNumber && 0 <= frameNumber <= file.decodable
        invariant io.openHandles == old(io.openHandles) && io.log == old(io.log)
        invariant Valid()
        invariant Sampled(path, file, skip, EnhancerConfig(), 0) ==
          var rest := Sampled(path, file, skip, EnhancerConfig(), frameNumber);
          FrameStream(frames + rest.frames, rest.failure)
        decreases file.decodable - frameNumber
      {
        var ok, frame := cap.Read();
        if !ok {
          break;
        }
        SampleStep(path, file, skip, EnhancerConfig(), frames, frameNumber);
        if frameNumber % skip == 0 {
          var rgb := BgrToRgb(frame);
          if enhancer != null {
            var enhanced := enhancer.Enhance(rgb);
            if enhanced.Err? {
              cap.Release();
              return FrameStream(frames, Some(EnhanceFailed(enhanced.error)));
            }
            rgb := enhanced.value;
          }
          var timestamp := frameNumber as real / file.fps;
          frames := frames + [VideoFrame(rgb, frameNumber, timestamp)];
        }
        frameNumber := frameNumber + 1;
      }
      cap.Release();
      stream := FrameStream(frames, None);
    }
  }

  /** The invariant of the decoding loop carried over frame `n`: a frame
      that is not sampled adds nothing, a sampled one adds its processed
      image, and an enhancer failure ends the stream there. */
  lemma SampleStep(path: string, file: VideoFile, skip: int, config: Option<EnhancementConfig>, frames: seq<VideoFrame>, n: nat)
    requires skip >= 1 && file.fps > 0.0 && n < file.decodable
    requires Sampled(path, file, skip, config, 0) ==
      var rest := Sampled(path, file, skip, config, n);
      FrameStream(frames + rest.frames, rest.failure)
    ensures var rest := Sampled(path, file, skip, config, n + 1);
      && (!IsSampled(n, skip) ==> Sampled(path, file, skip, config, 0) == FrameStream(frames + rest.frames, rest.failure))
      && (IsSampled(n, skip) && Processed(path, file, config, n).Err? ==>
            Sampled(path, file, skip, config, 0) == FrameStream(frames, Some(EnhanceFailed(Processed(path, file, config, n).error))))
      && (IsSampled(n, skip) && Processed(path, file, config, n).Ok? ==>
            Sampled(path, file, skip, config, 0) ==
              FrameStream(frames + [VideoFrame(Processed(path, file, config, n).value, n, n as real / file.fps)] + rest.frames, rest.failure))
  {
    var rest := Sampled(path, file, skip, config, n + 1);
    if IsSampled(n, skip) && Processed(path, file, config, n).Ok? {
      var here := [VideoFrame(Processed(path, file, config, n).value, n, n as real / file.fps)];
      assert frames + (here + rest.frames) == frames + here + rest.frames;
    } else if IsSampled(n, skip) {
      assert frames + [] == frames;
    }
  }

  // ---------------------------------------------------------------------------
  // Properties
  // ---------------------------------------------------------------------------

  /** Frame `f` is one the loop may yield from frame number `from` on: a
      sampled frame the file decodes, stamped with `frame_number / fps`,
      carrying the processed decoded image. */
  predicate Yieldable(path: string, file: VideoFile, skip: int, config: Option<EnhancementConfig>, from: int, f: VideoFrame)
    requires skip >= 1 && file.fps > 0.0
  {
    && from <= f.frameNumber < file.decodable
    && IsSampled(f.frameNumber, skip)
    && f.timestampSec == f.frameNumber as real / file.fps
    && Processed(path, file, config, f.frameNumber) == Ok(f.image)
  }

  /** Every yielded frame is a sampled frame of the video, stamped with its
      time, and carries the processed decoded image. */
  lemma {:induction false} SampledFramesAreSampled(path: string, file: VideoFile, skip: int, config: Option<EnhancementConfig>, from: nat)
    requires skip >= 1 && file.fps > 0.0
    ensures forall k :: 0 <= k < |Sampled(path, file, skip, config, from).frames| ==>
      Yieldable(path, file, skip, config, from, Sampled(path, file, skip, config, from).frames[k])
    decreases file.decodable - from
  {
    if from < file.decodable {
      var s := Sampled(path, file, skip, config, from);
      var rest := Sampled(path, file, skip, config, from + 1);
      SampledFramesAreSampled(path, file, skip, config, from + 1);
      forall k | 0 <= k < |s.frames| ensures Yieldable(path, file, skip, config, from, s.frames[k]) {
        if !IsSampled(from, skip) {
          assert s == rest;
          assert Yieldable(path, file, skip, config, from + 1, s.frames[k]);
        } else if k == 0 {
          assert s.frames[0] == VideoFrame(Processed(path, file, config, from).value, from, from as real / file.fps);
        } else {
          assert s.frames[k] == rest.frames[k - 1];
          assert Yieldable(path, file, skip, config, from + 1, rest.frames[k - 1]);
        }
      }
    }
  }

  /** The yielded frame numbers increase, and no sampled frame is passed
      over: none lies before the first or between two consecutive ones. */
  lemma {:induction false} SampledFramesInOrder(path: string, file: VideoFile, skip: int, config: Option<EnhancementConfig>, from: nat)
    requires skip >= 1 && file.fps > 0.0
    ensures var fs := Sampled(path, file, skip, config, from).frames;
      && (|fs| > 0 ==> from <= fs[0].frameNumber && forall i :: from <= i < fs[0].frameNumber ==> !IsSampled(i, skip))
      && forall k :: 0 <= k < |fs| - 1 ==>
           && fs[k].frameNumber < fs[k + 1].frameNumber
           && forall i :: fs[k].frameNumber < i < fs[k + 1].frameNumber ==> !IsSampled(i, skip)
    decreases file.decodable - from
  {
    if from < file.decodable {
      var s := Sampled(path, file, skip, config, from);
      var rest := Sampled(path, file, skip, config, from + 1);
      SampledFramesInOrder(path, file, skip, config, from + 1);
      SampledFramesAreSampled(path, file, skip, config, from + 1);
      if IsSampled(from, skip) && Processed(path, file, config, from).Ok? {
        assert s.frames == [s.frames[0]] + rest.frames;
        forall k | 0 <= k < |s.frames| - 1
          ensures s.frames[k].frameNumber < s.frames[k + 1].frameNumber
          ensures forall i :: s.frames[k].frameNumber < i < s.frames[k + 1].frameNumber ==> !IsSampled(i, skip)
        {
          assert s.frames[k + 1] == rest.frames[k];
          if k > 0 {
            assert s.frames[k] == rest.frames[k - 1];
          }
        }
      }
    }
  }

  /** Run to exhaustion, the loop yields every sampled frame the file decodes. */
  lemma {:induction false} SampledFramesComplete(path: string, file: VideoFile, skip: int, config: Option<EnhancementConfig>, from: nat)
    requires skip >= 1 && file.fps > 0.0
    ensures var s := Sampled(path, file, skip, config, from);
      s.failure.None? ==>
        forall i :: from <= i < file.decodable && IsSampled(i, skip) ==>
          exists k :: 0 <= k < |s.frames| && s.frames[k].frameNumber == i
    decreases file.decodable - from
  {
    if from < file.decodable {
      var s := Sampled(path, file, skip, config, from);
      var rest := Sampled(path, file, skip, config, from + 1);
      SampledFramesComplete(path, file, skip, config, from + 1);
      if s.failure.None? && IsSampled(from, skip) {
        assert s.frames == [s.frames[0]] + rest.frames;
        forall i | from <= i < file.decodable && IsSampled(i, skip)
          ensures exists k :: 0 <= k < |s.frames| && s.frames[k].frameNumber == i
        {
          if i == from {
            assert s.frames[0].frameNumber == i;
          } else {
            var k :| 0 <= k < |rest.frames| && rest.frames[k].frameNumber == i;
            assert s.frames[k + 1].frameNumber == i;
          }
        }
      }
    }
  }

  /** Every decoded frame has the size the container reports, and the
      enhancer's configuration is fixed, so it either accepts all of them or
      none. */
  lemma ProcessedUniform(path: string, file: VideoFile, config: Option<EnhancementConfig>, i: int, j: int)
    ensures Processed(path, file, config, i).Ok? <==> Processed(path, file, config, j).Ok?
  {
    var a, b := BgrToRgb(DecodedFrame(path, file, i)), BgrToRgb(DecodedFrame(path, file, j));
    assert Height(a) == Height(b) && Width(a) == Width(b);
    if config.Some? && config.value.enableZoom && config.value.zoomCropRatio < 1.0 {
      assert ZoomBox(Height(a), Width(a), config.value.zoomCropRatio) == ZoomBox(Height(b), Width(b), config.value.zoomCropRatio);
    }
  }

  /** Only the enhancer can interrupt the loop, and only on the first
      sampled frame: a stream that fails has yielded nothing. */
  lemma {:induction false} SampledFailure(path: string, file: VideoFile, skip: int, config: Option<EnhancementConfig>, from: nat)
    requires skip >= 1 && file.fps > 0.0
    ensures var s := Sampled(path, file, skip, config, from);
      s.failure.Some? ==>
        && s.frames == []
        && config.Some?
        && Processed(path, file, config, from).Err?
        && s.failure == Some(EnhanceFailed(Processed(path, file, config, from).error))
    decreases file.decodable - from
  {
    if from < file.decodable {
      SampledFailure(path, file, skip, config, from + 1);
      ProcessedUniform(path, file, config, from, from + 1);
    }
  }

  lemma MultipleStep(x: int, skip: int)
    requires skip >= 1 && IsSampled(x, skip)
    ensures IsSampled(x + skip, skip)
  {
    MultipleIsProduct(x, skip);
    DivModUnique(x + skip, skip, x / skip + 1, 0);
  }

  /** Two distinct sampled frame numbers lie at least `skip` apart. */
  lemma NextMultiple(a: int, b: int, skip: int)
    requires skip >= 1 && IsSampled(a, skip) && IsSampled(b, skip) && a < b
    ensures a + skip <= b
  {
    MultipleIsProduct(a, skip);
    MultipleIsProduct(b, skip);
    MulOrder(a / skip, b / skip, skip);
  }

  /** Frame numbers that start at the first multiple of `skip` at or after
      zero, and then step from one multiple to the next, are `k * skip`. */
  lemma {:induction false} ConsecutiveMultiples(fs: seq<VideoFrame>, skip: int, k: nat)
    requires skip >= 1 && k < |fs|
    requires forall j :: 0 <= j < |fs| ==> 0 <= fs[j].frameNumber && IsSampled(fs[j].frameNumber, skip)
    requires forall i :: 0 <= i < fs[0].frameNumber ==> !IsSampled(i, skip)
    requires forall j :: 0 <= j < |fs| - 1 ==>
      && fs[j].frameNumber < fs[j + 1].frameNumber
      && forall i :: fs[j].frameNumber < i < fs[j + 1].frameNumber ==> !IsSampled(i, skip)
    ensures fs[k].frameNumber == k * skip
    decreases k
  {
    if k == 0 {
      assert IsSampled(0, skip);
    } else {
      ConsecutiveMultiples(fs, skip, k - 1);
      var prev := fs[k - 1].frameNumber;
      NextMultiple(prev, fs[k].frameNumber, skip);
      MultipleStep(prev, skip);
      assert IsSampled(prev + skip, skip);
      assert prev + skip == k * skip;
    }
  }

  /** Decoded from the start, the k-th yielded frame is frame `k * skip`. */
  lemma FrameNumberAt(path: string, file: VideoFile, skip: int, config: Option<EnhancementConfig>, k: nat)
    requires skip >= 1 && file.fps > 0.0
    requires k < |Sampled(path, file, skip, config, 0).frames|
    ensures Sampled(path, file, skip, config, 0).frames[k].frameNumber == k * skip
  {
    var fs := Sampled(path, file, skip, config, 0).frames;
    SampledFramesAreSampled(path, file, skip, config, 0);
    SampledFramesInOrder(path, file, skip, config, 0);
    forall j | 0 <= j < |fs| ensures 0 <= fs[j].frameNumber && IsSampled(fs[j].frameNumber, skip) {
      assert Yieldable(path, file, skip, config, 0, fs[j]);
    }
    ConsecutiveMultiples(fs, skip, k);
  }

  /** Decoded from the start to exhaustion, the loop yields the frames
      0, skip, 2 * skip, ... below the decodable count, and exactly
      ceil(decodable / skip) of them. */
  lemma SampledFromStart(path: string, file: VideoFile, skip: int, config: Option<EnhancementConfig>)
    requires skip >= 1 && file.fps > 0.0
    ensures var s := Sampled(path, file, skip, config, 0);
      && (forall k :: 0 <= k < |s.frames| ==>
            && s.frames[k].frameNumber == k * skip
            && s.frames[k].timestampSec == (k * skip) as real / file.fps
            && Processed(path, file, config, k * skip) == Ok(s.frames[k].image))
      && (s.failure.None? ==> (|s.frames| - 1) * skip < file.decodable <= |s.frames| * skip)
  {
    var s := Sampled(path, file, skip, config, 0);
    var n := |s.frames|;
    SampledFramesAreSampled(path, file, skip, config, 0);
    forall k | 0 <= k < n
      ensures s.frames[k].frameNumber == k * skip
      ensures s.frames[k].timestampSec == (k * skip) as real / file.fps
      ensures Processed(path, file, config, k * skip) == Ok(s.frames[k].image)
    {
      FrameNumberAt(path, file, skip, config, k);
      assert Yieldable(path, file, skip, config, 0, s.frames[k]);
    }
    if s.failure.None? {
      if n > 0 {
        assert Yieldable(path, file, skip, config, 0, s.frames[n - 1]);
      }
      SampledFramesComplete(path, file, skip, config, 0);
      if n * skip < file.decodable {
        MultipleOf(n, skip);
        assert IsSampled(n * skip, skip);
        var k :| 0 <= k < n && s.frames[k].frameNumber == n * skip;
        MulOrder(k, n, skip);
        assert false;
      }
    }
  }

  /** When the source frame rate is at least the target, the rate the loop
      samples at, `fps / frame_skip`, lies in [target, 2 * target); below the
      target every frame is kept. */
  lemma SampleRateNearTarget(fps: real, targetFps: real)
    requires fps > 0.0 && targetFps > 0.0
    ensures var skip := FrameSkip(fps, targetFps).value;
      && (fps >= targetFps ==> targetFps <= fps / skip as real < 2.0 * targetFps)
      && (fps < targetFps ==> skip == 1)
  {
    var x := fps / targetFps;
    var skip := FrameSkip(fps, targetFps).value;
    assert x * targetFps == fps;
    if fps >= targetFps {
      if x < 1.0 {
        PosMul(1.0 - x, targetFps);
        assert false;
      }
      var k := Trunc(x);
      assert 1 <= k && k as real <= x < k as real + 1.0;
      assert skip == k;
      RateBounds(fps, targetFps, x, k as real);
      DivideBounds(fps, k as real, targetFps);
    } else if x >= 1.0 {
      NonNegMul(x - 1.0, targetFps);
      assert false;
    }
  }

  lemma RateBounds(fps: real, t: real, x: real, k: real)
    requires t > 0.0 && x * t == fps && 1.0 <= k <= x < k + 1.0
    ensures t * k <= fps < 2.0 * t * k
  {
    var above, below, extra := k + 1.0 - x, x - k, k - 1.0;
    PosMul(above, t);
    assert above * t == k * t + t - x * t;
    assert fps < k * t + t;
    NonNegMul(below, t);
    assert below * t == x * t - k * t;
    assert k * t <= fps;
    NonNegMul(extra, t);
    assert extra * t == k * t - t;
    assert k * t + t <= 2.0 * (k * t);
  }

  lemma DivideBounds(fps: real, k: real, t: real)
    requires k >= 1.0 && t * k <= fps < 2.0 * t * k
    ensures t <= fps / k < 2.0 * t
  {
    var q := fps / k;
    assert q * k == fps;
    if q < t {
      PosMul(t - q, k);
      assert false;
    }
    if q >= 2.0 * t {
      NonNegMul(q - 2.0 * t, k);
      assert false;
    }
  }

  /** `get_metadata`'s duration is the frame count over the frame rate. */
  lemma MetadataDuration(file: VideoFile)
    ensures var md := MetadataOf(file);
      && (md.fps > 0.0 ==> md.durationSec * md.fps == md.totalFrames as real)
      && (md.fps <= 0.0 ==> md.durationSec == 0.0)
      && (file.frameCount >= 0.0 && md.fps > 0.0 ==> md.durationSec >= 0.0)
  {
  }

  /** `extract_frames` either raises before yielding anything, or yields the
      whole sampled stream; it raises exactly when the video does not open,
      reports a frame rate that is not positive, the target rate is zero, or
      the enhancer raises on the first frame: its zoom leaves an empty crop
      of the frame size, or its sharpen stage has a kernel size OpenCV
      refuses. */
  lemma ExtractionOutcome(files: Files, path: string, targetFps: real, config: Option<EnhancementConfig>)
    ensures var s := Extraction(files, path, targetFps, config);
      && (s.failure.Some? ==> s.frames == [])
      && (s.failure == Some(CannotOpen(path)) <==> !(path in files && files[path].opens))
      && (s.failure.Some? && s.failure.value.InvalidFps? <==> path in files && files[path].opens && files[path].fps <= 0.0)
      && (s.failure == Some(ZeroTargetFps) <==>
            path in files && files[path].opens && files[path].fps > 0.0 && targetFps == 0.0)
      && (s.failure.Some? && s.failure.value.EnhanceFailed? <==>
            && path in files && files[path].opens && files[path].fps > 0.0 && targetFps != 0.0
            && files[path].decodable > 0 && Processed(path, files[path], config, 0).Err?)
  {
    if path in files && files[path].opens && files[path].fps > 0.0 && targetFps != 0.0 {
      var file := files[path];
      var skip := FrameSkip(file.fps, targetFps).value;
      SampledFailure(path, file, skip, config, 0);
      if file.decodable > 0 {
        assert IsSampled(0, skip);
      }
    }
  }
}
