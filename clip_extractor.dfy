/** Clip rendering (app/services/clip_extractor.py): for one aggregated
    error, copy the frames around its worst frame into a clip, ring the
    joints the metric is about, and save a thumbnail; every failure ends in
    `(None, None)`. Pixels stay symbolic (see OpenCv): what is modelled is
    which frames are read, which are written where and with which spotlight
    points, and which paths come back. */
module ClipExtraction {
  import opened PyBuiltins
  import opened Schemas
  import opened OpenCv
  import opened Arithmetic

  /** A pose landmark in normalised image coordinates (its `x` and `y`). */
  datatype Landmark = Landmark(x: real, y: real)

  type Pixel = (int, int)

  /** `METRIC_LANDMARK_MAP`: the MediaPipe landmarks each metric is about. */
  const METRIC_LANDMARK_MAP: map<string, seq<nat>> := map[
    "left_knee_angle" := [25],
    "right_knee_angle" := [26],
    "left_hip_angle" := [23],
    "right_hip_angle" := [24],
    "left_elbow_angle" := [13],
    "right_elbow_angle" := [14],
    "left_arm_raise" := [11],
    "right_arm_raise" := [12],
    "shoulder_tilt" := [11, 12],
    "spinal_angle" := [11, 12, 23, 24],
    "head_forward_offset" := [0],
    "stance_width_ratio" := [27, 28]]

  const SPINAL_ANGLE := "spinal_angle"

  /** The one exception the clip code can raise on well-formed input:
      `landmarks[i]` past the end of a short landmark list. */
  datatype ClipError = IndexError

  function ToPixel(lm: Landmark, width: int, height: int): Pixel
  {
    (Trunc(lm.x * width as real), Trunc(lm.y * height as real))
  }

  /** What `_get_landmark_pixel_coords` returns: the landmarks that exist,
      in index order, in pixels. */
  function PixelCoords(landmarks: seq<Landmark>, indices: seq<nat>, width: int, height: int): seq<Pixel>
  {
    if indices == [] then []
    else
      var head := if indices[0] < |landmarks| then [ToPixel(landmarks[indices[0]], width, height)] else [];
      head + PixelCoords(landmarks, indices[1..], width, height)
  }

  /** The pixel halfway between two landmarks. */
  function Midpoint(a: Landmark, b: Landmark, width: int, height: int): Pixel
  {
    (Trunc((a.x + b.x) / 2.0 * width as real), Trunc((a.y + b.y) / 2.0 * height as real))
  }

  /** What `_compute_spotlight_coords` returns or raises. */
  function SpotlightCoords(landmarks: seq<Landmark>, metric: string, width: int, height: int): Result<seq<Pixel>, ClipError>
  {
    var indices := if metric in METRIC_LANDMARK_MAP then METRIC_LANDMARK_MAP[metric] else [];
    if indices == [] then Ok([])
    else if metric == SPINAL_ANGLE && |indices| == 4 then
      if indices[0] < |landmarks| && indices[1] < |landmarks| && indices[2] < |landmarks| && indices[3] < |landmarks| then
        Ok([Midpoint(landmarks[indices[0]], landmarks[indices[1]], width, height),
            Midpoint(landmarks[indices[2]], landmarks[indices[3]], width, height)])
      else Err(IndexError)
    else Ok(PixelCoords(landmarks, indices, width, height))
  }

  /** The clip's time span and frame span. */
  datatype ClipWindow = ClipWindow(startTime: real, endTime: real, startFrame: int, endFrame: int)

  /** The video's length in seconds, zero when the frame rate is not positive. */
  function Duration(fps: real, totalFrames: int): real
  {
    if fps > 0.0 then totalFrames as real / fps else 0.0
  }

  /** Half the clip duration either side of the worst frame's time, clamped
      to [0, duration], then `int(t * fps)` for the frame numbers. */
  function Window(fps: real, totalFrames: int, clipDurationSec: real, centerTime: real): ClipWindow
  {
    var duration := Duration(fps, totalFrames);
    var half := clipDurationSec / 2.0;
    var startTime := if 0.0 >= centerTime - half then 0.0 else centerTime - half;
    var endTime := if duration <= centerTime + half then duration else centerTime + half;
    ClipWindow(startTime, endTime, Trunc(startTime * fps), Trunc(endTime * fps))
  }

  /** Everything one `extract_clip` run depends on once the video is open. */
  datatype ClipJob = ClipJob(
    video: string,
    file: VideoFile,
    metric: string,
    worstFrame: int,
    landmarksByFrame: map<int, seq<Landmark>>,
    width: int,
    height: int,
    clipFile: OutPath,
    thumbFile: OutPath,
    window: ClipWindow)

  /** Frame `n` as written: with the spotlight when the frame has landmarks
      and the metric picks at least one point. */
  function Highlighted(job: ClipJob, n: int, frame: Image): Result<Image, ClipError>
  {
    if n in job.landmarksByFrame then
      match SpotlightCoords(job.landmarksByFrame[n], job.metric, job.width, job.height)
      case Err(e) => Err(e)
      case Ok(coords) => Ok(if coords != [] then Spotlight(frame, coords) else frame)
    else Ok(frame)
  }

  /** What the frame loop has done from frame `current` on: the files it
      wrote, whether the thumbnail is saved, and the exception if one
      stopped it. */
  datatype LoopRun = LoopRun(effects: seq<Effect>, thumbnailSaved: bool, failure: Option<ClipError>)

  /** The frame loop of `extract_clip` from frame `current`, the capture
      positioned on that frame: it stops past `end_frame` or at the first
      failed read. */
  function FrameLoop(job: ClipJob, current: int, saved: bool): LoopRun
    decreases job.window.endFrame + 1 - current
  {
    if current > job.window.endFrame || !(0 <= current < job.file.decodable) then LoopRun([], saved, None)
    else
      match Highlighted(job, current, DecodedFrame(job.video, job.file, current))
      case Err(e) => LoopRun([], saved, Some(e))
      case Ok(frame) =>
        var thumb := current == job.worstFrame && !saved;
        var here := [FrameWritten(job.clipFile, frame)] + (if thumb then [ImageWritten(job.thumbFile, frame)] else []);
        var rest := FrameLoop(job, current + 1, saved || thumb);
        LoopRun(here + rest.effects, rest.thumbnailSaved, rest.failure)
  }

  lemma LoopStops(job: ClipJob, current: int, saved: bool)
    requires current > job.window.endFrame || !(0 <= current < job.file.decodable)
    ensures FrameLoop(job, current, saved) == LoopRun([], saved, None)
  {
  }

  lemma LoopFails(job: ClipJob, current: int, saved: bool)
    requires current <= job.window.endFrame && 0 <= current < job.file.decodable
    requires Highlighted(job, current, DecodedFrame(job.video, job.file, current)).Err?
    ensures FrameLoop(job, current, saved).failure.Some?
  {
  }

  lemma LoopStep(job: ClipJob, current: int, saved: bool, frame: Image)
    requires current <= job.window.endFrame && 0 <= current < job.file.decodable
    requires Highlighted(job, current, DecodedFrame(job.video, job.file, current)) == Ok(frame)
    ensures var thumb := current == job.worstFrame && !saved;
      var rest := FrameLoop(job, current + 1, saved || thumb);
      FrameLoop(job, current, saved) ==
        LoopRun([FrameWritten(job.clipFile, frame)] + (if thumb then [ImageWritten(job.thumbFile, frame)] else []) + rest.effects,
                rest.thumbnailSaved, rest.failure)
  {
  }

  /** The loop invariant of `CopyFrames` carried over one written frame:
      the effects so far grow by that frame's writes. */
  lemma LoopAdvance(job: ClipJob, current: int, saved: bool, done: seq<Effect>, frame: Image)
    requires current <= job.window.endFrame && 0 <= current < job.file.decodable
    requires Highlighted(job, current, DecodedFrame(job.video, job.file, current)) == Ok(frame)
    requires FrameLoop(job, job.window.startFrame, false) ==
      var rest := FrameLoop(job, current, saved);
      LoopRun(done + rest.effects, rest.thumbnailSaved, rest.failure)
    ensures var thumb := current == job.worstFrame && !saved;
      var rest := FrameLoop(job, current + 1, saved || thumb);
      FrameLoop(job, job.window.startFrame, false) ==
        var written := done + [FrameWritten(job.clipFile, frame)];
        LoopRun((if thumb then written + [ImageWritten(job.thumbFile, frame)] else written) + rest.effects,
                rest.thumbnailSaved, rest.failure)
  {
    var thumb := current == job.worstFrame && !saved;
    var here := [FrameWritten(job.clipFile, frame)] + (if thumb then [ImageWritten(job.thumbFile, frame)] else []);
    var rest := FrameLoop(job, current + 1, saved || thumb);
    LoopStep(job, current, saved, frame);
    assert done + (here + rest.effects) ==
      (if thumb then done + [FrameWritten(job.clipFile, frame)] + [ImageWritten(job.thumbFile, frame)]
       else done + [FrameWritten(job.clipFile, frame)]) + rest.effects;
  }

  /** `(start_frame + end_frame) // 2`: Python's floor division, which is
      Dafny's for a positive divisor. */
  function MiddleFrame(window: ClipWindow): int
  {
    (window.startFrame + window.endFrame) / 2
  }

  /** The fallback thumbnail from the middle of the clip: nothing when that
      frame does not decode. */
  function FallbackThumbnail(job: ClipJob): Result<seq<Effect>, ClipError>
  {
    var middle := MiddleFrame(job.window);
    if !(0 <= middle < job.file.decodable) then Ok([])
    else
      match Highlighted(job, middle, DecodedFrame(job.video, job.file, middle))
      case Err(e) => Err(e)
      case Ok(frame) => Ok([ImageWritten(job.thumbFile, frame)])
  }

  /** `ClipExtractor`'s settings; the spotlight style is not modelled. */
  datatype ClipSettings = ClipSettings(clipDurationSec: real, outputDir: string)

  function ClipName(sessionId: string, metric: string): string
  {
    sessionId + "_" + metric + "_clip.mp4"
  }

  function ThumbName(sessionId: string, metric: string): string
  {
    sessionId + "_" + metric + "_thumb.jpg"
  }

  const AVC1 := "avc1"
  const MP4V := "mp4v"

  function JobFor(settings: ClipSettings, video: string, file: VideoFile, sessionId: string,
                  error: AggregatedError, landmarksByFrame: map<int, seq<Landmark>>): ClipJob
  {
    ClipJob(
      video := video,
      file := file,
      metric := error.metric,
      worstFrame := error.worstFrameNumber,
      landmarksByFrame := landmarksByFrame,
      width := Trunc(file.width),
      height := Trunc(file.height),
      clipFile := OutPath(settings.outputDir, ClipName(sessionId, error.metric)),
      thumbFile := OutPath(settings.outputDir, ThumbName(sessionId, error.metric)),
      window := Window(file.fps, Trunc(file.frameCount), settings.clipDurationSec, error.worstTimestampSec))
  }

  /** What `extract_clip` returns, and every file it writes on the way. */
  datatype ClipOutcome = ClipOutcome(clipPath: Option<string>, thumbnailPath: Option<string>, effects: seq<Effect>)

  function ExtractedClip(settings: ClipSettings, files: Files, codecs: set<string>, video: string, sessionId: string,
                         error: AggregatedError, landmarksByFrame: map<int, seq<Landmark>>): ClipOutcome
  {
    if !(video in files && files[video].opens) then ClipOutcome(None, None, [])
    else if !(AVC1 in codecs || MP4V in codecs) then ClipOutcome(None, None, [])
    else
      var job := JobFor(settings, video, files[video], sessionId, error, landmarksByFrame);
      var run := FrameLoop(job, job.window.startFrame, false);
      var paths := (Some("/clips/" + ClipName(sessionId, error.metric)), Some("/clips/" + ThumbName(sessionId, error.metric)));
      if run.failure.Some? then ClipOutcome(None, None, run.effects)
      else if run.thumbnailSaved then ClipOutcome(paths.0, paths.1, run.effects)
      else
        match FallbackThumbnail(job)
        case Err(_) => ClipOutcome(None, None, run.effects)
        case Ok(thumb) => ClipOutcome(paths.0, paths.1, run.effects + thumb)
  }

  /** `error` with the paths `extract_clip` returned for it. */
  function WithClip(error: AggregatedError, outcome: ClipOutcome): AggregatedError
  {
    error.(clipPath := outcome.clipPath, thumbnailPath := outcome.thumbnailPath)
  }

  /** `extract_all_clips`: the errors with their paths, and the files written. */
  function AllClips(settings: ClipSettings, files: Files, codecs: set<string>, video: string, sessionId: string,
                    errors: seq<AggregatedError>, landmarksByFrame: map<int, seq<Landmark>>): (seq<AggregatedError>, seq<Effect>)
  {
    if errors == [] then ([], [])
    else
      var outcome := ExtractedClip(settings, files, codecs, video, sessionId, errors[0], landmarksByFrame);
      var rest := AllClips(settings, files, codecs, video, sessionId, errors[1..], landmarksByFrame);
      ([WithClip(errors[0], outcome)] + rest.0, outcome.effects + rest.1)
  }

  lemma AllClipsStep(settings: ClipSettings, files: Files, codecs: set<string>, video: string, sessionId: string,
                     errors: seq<AggregatedError>, landmarksByFrame: map<int, seq<Landmark>>, i: nat,
                     updated: seq<AggregatedError>, done: seq<Effect>, outcome: ClipOutcome)
    requires i < |errors|
    requires outcome == ExtractedClip(settings, files, codecs, video, sessionId, errors[i], landmarksByFrame)
    requires AllClips(settings, files, codecs, video, sessionId, errors, landmarksByFrame).0 ==
      updated + AllClips(settings, files, codecs, video, sessionId, errors[i..], landmarksByFrame).0
    requires AllClips(settings, files, codecs, video, sessionId, errors, landmarksByFrame).1 ==
      done + AllClips(settings, files, codecs, video, sessionId, errors[i..], landmarksByFrame).1
    ensures AllClips(settings, files, codecs, video, sessionId, errors, landmarksByFrame).0 ==
      (updated + [WithClip(errors[i], outcome)]) + AllClips(settings, files, codecs, video, sessionId, errors[i + 1..], landmarksByFrame).0
    ensures AllClips(settings, files, codecs, video, sessionId, errors, landmarksByFrame).1 ==
      (done + outcome.effects) + AllClips(settings, files, codecs, video, sessionId, errors[i + 1..], landmarksByFrame).1
  {
    assert errors[i..][1..] == errors[i + 1..];
    assert errors[i..][0] == errors[i];
  }

  class ClipExtractor {
    const clipDurationSec: real
    const outputDir: string

    function Settings(): ClipSettings
    {
      ClipSettings(clipDurationSec, outputDir)
    }

    /** `ClipExtractor(...)`: creates the output directory. */
    constructor (io: Io, clipDurationSec: real := 2.0, outputDir: string := "./clips")
      modifies io
      ensures this.clipDurationSec == clipDurationSec && this.outputDir == outputDir
      ensures io.log == old(io.log) + [DirectoryMade(outputDir)]
      ensures io.openHandles == old(io.openHandles)
    {
      this.clipDurationSec := clipDurationSec;
      this.outputDir := outputDir;
      new;
      io.Mkdir(outputDir);
    }

    /** `_get_landmark_pixel_coords` */
    method GetLandmarkPixelCoords(landmarks: seq<Landmark>, indices: seq<nat>, width: int, height: int)
      returns (coords: seq<Pixel>)
      ensures coords == PixelCoords(landmarks, indices, width, height)
    {
      coords := [];
      var i := 0;
      while i < |indices|
        invariant 0 <= i <= |indices|
        invariant coords + PixelCoords(landmarks, indices[i..], width, height) == PixelCoords(landmarks, indices, width, height)
      {
        assert indices[i..][1..] == indices[i + 1..];
        var idx := indices[i];
        if idx < |landmarks| {
          coords := coords + [ToPixel(landmarks[idx], width, height)];
        }
        i := i + 1;
      }
    }

    /** `_compute_spotlight_coords` */
    method ComputeSpotlightCoords(landmarks: seq<Landmark>, metric: string, width: int, height: int)
      returns (coords: Result<seq<Pixel>, ClipError>)
      ensures coords == SpotlightCoords(landmarks, metric, width, height)
    {
      var indices := if metric in METRIC_LANDMARK_MAP then METRIC_LANDMARK_MAP[metric] else [];
      if indices == [] {
        return Ok([]);
      }
      if metric == SPINAL_ANGLE && |indices| == 4 {
        if !(indices[0] < |landmarks| && indices[1] < |landmarks| && indices[2] < |landmarks| && indices[3] < |landmarks|) {
          return Err(IndexError);
        }
        var shoulders := Midpoint(landmarks[indices[0]], landmarks[indices[1]], width, height);
        var hips := Midpoint(landmarks[indices[2]], landmarks[indices[3]], width, height);
        return Ok([shoulders, hips]);
      }
      var pixels := GetLandmarkPixelCoords(landmarks, indices, width, height);
      return Ok(pixels);
    }

    /** Frame `n` with the spotlight drawn when it applies. */
    method Highlight(job: ClipJob, n: int, frame: Image) returns (result: Result<Image, ClipError>)
      ensures result == Highlighted(job, n, frame)
    {
      if n in job.landmarksByFrame {
        var coords := ComputeSpotlightCoords(job.landmarksByFrame[n], job.metric, job.width, job.height);
        if coords.Err? {
          return Err(coords.error);
        }
        if coords.value != [] {
          return Ok(Spotlight(frame, coords.value));
        }
      }
      return Ok(frame);
    }

    /** The frame loop of `extract_clip`, from the start of the window:
        it writes what `FrameLoop` says and reports whether the thumbnail
        was saved and whether an exception stopped it. */
    method CopyFrames(cap: Capture, writer: Writer, io: Io, job: ClipJob) returns (thumbnailSaved: bool, failed: bool)
      requires cap.io == io && cap.path == job.video && cap.file == Some(job.file) && !cap.released
      requires writer.io == io && writer.file == job.clipFile && writer.IsOpened()
      modifies cap, io
      ensures cap.file == Some(job.file) && !cap.released
      ensures var run := FrameLoop(job, job.window.startFrame, false);
        && io.log == old(io.log) + run.effects
        && thumbnailSaved == run.thumbnailSaved
        && failed == run.failure.Some?
      ensures io.openHandles == old(io.openHandles)
    {
      ghost var done: seq<Effect> := [];
      thumbnailSaved := false;
      cap.Seek(job.window.startFrame);
      var current := job.window.startFrame;
      while current <= job.window.endFrame
        invariant cap.io == io && cap.file == Some(job.file) && !cap.released && cap.pos == current
        invariant io.openHandles == old(io.openHandles) && io.log == old(io.log) + done
        invariant FrameLoop(job, job.window.startFrame, false) ==
          var rest := FrameLoop(job, current, thumbnailSaved);
          LoopRun(done + rest.effects, rest.thumbnailSaved, rest.failure)
        decreases job.window.endFrame + 1 - current
      {
        var ok, frame := cap.Read();
        if !ok {
          LoopStops(job, current, thumbnailSaved);
          break;
        }
        assert frame == DecodedFrame(job.video, job.file, current);
        var highlighted := Highlight(job, current, frame);
        if highlighted.Err? {
          LoopFails(job, current, thumbnailSaved);
          return thumbnailSaved, true;
        }
        frame := highlighted.value;
        var thumb := current == job.worstFrame && !thumbnailSaved;
        LoopAdvance(job, current, thumbnailSaved, done, frame);
        writer.Write(frame);
        assert writer.IsOpened();
        done := done + [FrameWritten(job.clipFile, frame)];
        assert io.log == old(io.log) + done;
        if thumb {
          io.Imwrite(job.thumbFile, frame);
          done := done + [ImageWritten(job.thumbFile, frame)];
          assert io.log == old(io.log) + done;
        }
        thumbnailSaved := thumbnailSaved || thumb;
        current := current + 1;
      }
      LoopStops(job, current, thumbnailSaved);
      failed := false;
    }

    /** The middle-of-clip thumbnail `extract_clip` falls back on. */
    method SaveMiddleThumbnail(cap: Capture, io: Io, job: ClipJob) returns (failed: bool)
      requires cap.io == io && cap.path == job.video && cap.file == Some(job.file) && !cap.released
      modifies cap, io
      ensures cap.file == Some(job.file) && !cap.released
      ensures var thumb := FallbackThumbnail(job);
        && failed == thumb.Err?
        && io.log == old(io.log) + (if thumb.Ok? then thumb.value else [])
      ensures io.openHandles == old(io.openHandles)
    {
      var middle := (job.window.startFrame + job.window.endFrame) / 2;
      cap.Seek(middle);
      var ok, frame := cap.Read();
      if !ok {
        return false;
      }
      var highlighted := Highlight(job, middle, frame);
      if highlighted.Err? {
        return true;
      }
      io.Imwrite(job.thumbFile, highlighted.value);
      failed := false;
    }

    /** The video writer of `extract_clip`: H.264 first, `mp4v` when the
        host cannot encode that; it opens when either codec is available. */
    method OpenWriter(file: OutPath, codecs: set<string>, io: Io) returns (writer: Writer)
      modifies io
      ensures fresh(writer) && writer.io == io && writer.file == file && !writer.released
      ensures writer.IsOpened() <==> AVC1 in codecs || MP4V in codecs
      ensures io.log == old(io.log)
      ensures io.openHandles == old(io.openHandles) + (if writer.IsOpened() then 1 else 0)
    {
      writer := new Writer(file, AVC1, codecs, io);
      if !writer.IsOpened() {
        writer := new Writer(file, MP4V, codecs, io);
      }
    }

    /** The frame loop and, when it saved no thumbnail, the middle-frame
        fallback: it fails when either raises, and writes what `FrameLoop`
        and `FallbackThumbnail` say. */
    method RenderClip(cap: Capture, writer: Writer, io: Io, job: ClipJob) returns (failed: bool)
      requires cap.io == io && cap.path == job.video && cap.file == Some(job.file) && !cap.released
      requires writer.io == io && writer.file == job.clipFile && writer.IsOpened()
      modifies cap, io
      ensures cap.file == Some(job.file) && !cap.released
      ensures var run := FrameLoop(job, job.window.startFrame, false);
        var thumb := FallbackThumbnail(job);
        && failed == (run.failure.Some? || (!run.thumbnailSaved && thumb.Err?))
        && io.log == old(io.log) + run.effects +
             (if run.failure.None? && !run.thumbnailSaved && thumb.Ok? then thumb.value else [])
      ensures io.openHandles == old(io.openHandles)
    {
      var thumbnailSaved;
      thumbnailSaved, failed := CopyFrames(cap, writer, io, job);
      if !failed && !thumbnailSaved {
        failed := SaveMiddleThumbnail(cap, io, job);
      }
    }

    /** `extract_clip`: the paths it returns are those of `ExtractedClip`,
        the files it writes are appended to the log in order, and every
        handle it opens is released. */
    method ExtractClip(files: Files, codecs: set<string>, io: Io, video: string, sessionId: string,
                       error: AggregatedError, landmarksByFrame: map<int, seq<Landmark>>)
      returns (clipPath: Option<string>, thumbnailPath: Option<string>)
      modifies io
      ensures var outcome := ExtractedClip(Settings(), files, codecs, video, sessionId, error, landmarksByFrame);
        && clipPath == outcome.clipPath && thumbnailPath == outcome.thumbnailPath
        && io.log == old(io.log) + outcome.effects
      ensures io.openHandles == old(io.openHandles)
    {
      var cap := new Capture(files, video, io);
      if !cap.IsOpened() {
        return None, None;
      }
      var job := JobFor(Settings(), video, cap.file.value, sessionId, error, landmarksByFrame);
      var clipName, thumbName := ClipName(sessionId, error.metric), ThumbName(sessionId, error.metric);
      var writer := OpenWriter(OutPath(outputDir, clipName), codecs, io);
      if !writer.IsOpened() {
        writer.Release();
        cap.Release();
        return None, None;
      }
      var failed := RenderClip(cap, writer, io, job);
      writer.Release();
      cap.Release();
      if failed {
        return None, None;
      }
      return Some("/clips/" + clipName), Some("/clips/" + thumbName);
    }

    /** `extract_all_clips`: one `extract_clip` per error, in order. */
    method ExtractAllClips(files: Files, codecs: set<string>, io: Io, video: string, sessionId: string,
                           errors: seq<AggregatedError>, landmarksByFrame: map<int, seq<Landmark>>)
      returns (updated: seq<AggregatedError>)
      modifies io
      ensures var all := AllClips(Settings(), files, codecs, video, sessionId, errors, landmarksByFrame);
        updated == all.0 && io.log == old(io.log) + all.1
      ensures io.openHandles == old(io.openHandles)
    {
      updated := [];
      ghost var done: seq<Effect> := [];
      var i := 0;
      assert errors[0..] == errors;
      while i < |errors|
        invariant 0 <= i <= |errors|
        invariant io.openHandles == old(io.openHandles) && io.log == old(io.log) + done
        invariant AllClips(Settings(), files, codecs, video, sessionId, errors, landmarksByFrame).0 ==
          updated + AllClips(Settings(), files, codecs, video, sessionId, errors[i..], landmarksByFrame).0
        invariant AllClips(Settings(), files, codecs, video, sessionId, errors, landmarksByFrame).1 ==
          done + AllClips(Settings(), files, codecs, video, sessionId, errors[i..], landmarksByFrame).1
      {
        ghost var outcome := ExtractedClip(Settings(), files, codecs, video, sessionId, errors[i], landmarksByFrame);
        AllClipsStep(Settings(), files, codecs, video, sessionId, errors, landmarksByFrame, i, updated, done, outcome);
        var clipPath, thumbnailPath := ExtractClip(files, codecs, io, video, sessionId, errors[i], landmarksByFrame);
        LogAppend(old(io.log), done, outcome.effects);
        updated := updated + [errors[i].(clipPath := clipPath, thumbnailPath := thumbnailPath)];
        done := done + outcome.effects;
        i := i + 1;
      }
      assert errors[i..] == [];
    }
  }

  // ---------------------------------------------------------------------------
  // Properties of the landmark lookups
  // ---------------------------------------------------------------------------

  /** `_get_landmark_pixel_coords` works index by index, so the points for
      `a + b` are those for `a` followed by those for `b`: index order is kept. */
  lemma {:induction false} PixelCoordsAppend(landmarks: seq<Landmark>, a: seq<nat>, b: seq<nat>, width: int, height: int)
    ensures PixelCoords(landmarks, a + b, width, height) ==
      PixelCoords(landmarks, a, width, height) + PixelCoords(landmarks, b, width, height)
  {
    if a == [] {
      assert a + b == b;
    } else {
      assert (a + b)[0] == a[0];
      assert (a + b)[1..] == a[1..] + b;
      PixelCoordsAppend(landmarks, a[1..], b, width, height);
    }
  }

  /** At most one point per index, and exactly the indexed landmarks, in
      order, when every index is in range. */
  lemma {:induction false} PixelCoordsLength(landmarks: seq<Landmark>, indices: seq<nat>, width: int, height: int)
    ensures |PixelCoords(landmarks, indices, width, height)| <= |indices|
    ensures (forall k :: 0 <= k < |indices| ==> indices[k] < |landmarks|) ==>
      |PixelCoords(landmarks, indices, width, height)| == |indices| &&
      forall k :: 0 <= k < |indices| ==>
        PixelCoords(landmarks, indices, width, height)[k] == ToPixel(landmarks[indices[k]], width, height)
  {
    if indices != [] {
      var tail := indices[1..];
      PixelCoordsLength(landmarks, tail, width, height);
      if forall k :: 0 <= k < |indices| ==> indices[k] < |landmarks| {
        assert forall k :: 0 <= k < |tail| ==> tail[k] == indices[k + 1];
        var r := PixelCoords(landmarks, indices, width, height);
        assert r == [ToPixel(landmarks[indices[0]], width, height)] + PixelCoords(landmarks, tail, width, height);
      }
    }
  }

  /** A point comes back exactly when some in-range index maps to it:
      out-of-range indices are skipped, not an error. */
  lemma {:induction false} PixelCoordsMembers(landmarks: seq<Landmark>, indices: seq<nat>, width: int, height: int, p: Pixel)
    ensures p in PixelCoords(landmarks, indices, width, height) <==>
      exists k :: 0 <= k < |indices| && indices[k] < |landmarks| && p == ToPixel(landmarks[indices[k]], width, height)
  {
    if indices != [] {
      var tail := indices[1..];
      PixelCoordsMembers(landmarks, tail, width, height, p);
      if p in PixelCoords(landmarks, indices, width, height) && !(indices[0] < |landmarks| && p == ToPixel(landmarks[indices[0]], width, height)) {
        var j :| 0 <= j < |tail| && tail[j] < |landmarks| && p == ToPixel(landmarks[tail[j]], width, height);
        assert tail[j] == indices[j + 1];
      }
      if exists k :: 0 <= k < |indices| && indices[k] < |landmarks| && p == ToPixel(landmarks[indices[k]], width, height) {
        var k :| 0 <= k < |indices| && indices[k] < |landmarks| && p == ToPixel(landmarks[indices[k]], width, height);
        if k > 0 {
          assert tail[k - 1] == indices[k];
        }
      }
    }
  }

  /** `_compute_spotlight_coords`: nothing for a metric without landmarks,
      the shoulder then the hip midpoint for the spine, the indexed points
      otherwise; it raises exactly for the spine on a list of 24 landmarks
      or fewer (index 24 is the right hip). */
  lemma SpotlightCoordsCases(landmarks: seq<Landmark>, metric: string, width: int, height: int)
    ensures metric !in METRIC_LANDMARK_MAP ==> SpotlightCoords(landmarks, metric, width, height) == Ok([])
    ensures SpotlightCoords(landmarks, metric, width, height).Err? <==> metric == SPINAL_ANGLE && |landmarks| <= 24
    ensures metric == SPINAL_ANGLE && |landmarks| > 24 ==>
      SpotlightCoords(landmarks, metric, width, height) ==
        Ok([Midpoint(landmarks[11], landmarks[12], width, height), Midpoint(landmarks[23], landmarks[24], width, height)])
    ensures metric in METRIC_LANDMARK_MAP && metric != SPINAL_ANGLE ==>
      SpotlightCoords(landmarks, metric, width, height) == Ok(PixelCoords(landmarks, METRIC_LANDMARK_MAP[metric], width, height))
  {
    if metric == SPINAL_ANGLE {
      assert METRIC_LANDMARK_MAP[metric] == [11, 12, 23, 24];
    }
  }

  /** A frame is changed only by a spotlight drawn at the metric's points,
      on a frame that has landmarks and yields at least one point; it fails
      only where the spotlight lookup raises. */
  lemma HighlightedCases(job: ClipJob, n: int, frame: Image)
    ensures Highlighted(job, n, frame).Err? <==>
      n in job.landmarksByFrame && job.metric == SPINAL_ANGLE && |job.landmarksByFrame[n]| <= 24
    ensures (n !in job.landmarksByFrame || SpotlightCoords(job.landmarksByFrame[n], job.metric, job.width, job.height) == Ok([])) ==>
      Highlighted(job, n, frame) == Ok(frame)
    ensures Highlighted(job, n, frame).Ok? && Highlighted(job, n, frame).value != frame ==>
      n in job.landmarksByFrame &&
      SpotlightCoords(job.landmarksByFrame[n], job.metric, job.width, job.height).Ok? &&
      SpotlightCoords(job.landmarksByFrame[n], job.metric, job.width, job.height).value != [] &&
      Highlighted(job, n, frame).value == Spotlight(frame, SpotlightCoords(job.landmarksByFrame[n], job.metric, job.width, job.height).value)
  {
    if n in job.landmarksByFrame {
      SpotlightCoordsCases(job.landmarksByFrame[n], job.metric, job.width, job.height);
    }
  }

  // ---------------------------------------------------------------------------
  // Properties of the clip window
  // ---------------------------------------------------------------------------

  /** The window never starts before 0 or ends after the video, and for a
      worst time inside the video it contains that time. */
  lemma WindowTimes(fps: real, totalFrames: int, clipDurationSec: real, centerTime: real)
    ensures 0.0 <= Window(fps, totalFrames, clipDurationSec, centerTime).startTime
    ensures Window(fps, totalFrames, clipDurationSec, centerTime).endTime <= Duration(fps, totalFrames)
    ensures 0.0 <= clipDurationSec && 0.0 <= centerTime <= Duration(fps, totalFrames) ==>
      Window(fps, totalFrames, clipDurationSec, centerTime).startTime <= centerTime <= Window(fps, totalFrames, clipDurationSec, centerTime).endTime
  {
  }

  /** `int()` of a time in `[a, b]` times a positive rate lies between the
      frames of `a` and `b`, and a time in `[0, total / fps]` gives a frame in
      `[0, total]`. */
  lemma TruncScaled(a: real, b: real, fps: real)
    requires 0.0 < fps && a <= b
    ensures Trunc(a * fps) <= Trunc(b * fps)
    ensures 0.0 <= a ==> 0 <= Trunc(a * fps)
  {
    ScaleMonotone(a, b, fps);
    TruncMonotone(a * fps, b * fps);
    if 0.0 <= a {
      NonNegMul(a, fps);
    }
  }

  lemma TruncWithinTotal(t: real, fps: real, totalFrames: int)
    requires 0.0 < fps && t <= totalFrames as real / fps
    ensures Trunc(t * fps) <= totalFrames
  {
    ScaleMonotone(t, totalFrames as real / fps, fps);
    DivMulCancel(totalFrames as real, fps);
    TruncMonotone(t * fps, totalFrames as real);
  }

  /** For a worst time inside the video, the first frame is at least 0 and
      at most the worst time's frame. */
  lemma WindowStartFrame(fps: real, totalFrames: int, clipDurationSec: real, centerTime: real)
    requires 0.0 < fps && 0.0 <= clipDurationSec && 0.0 <= centerTime <= Duration(fps, totalFrames)
    ensures 0 <= Window(fps, totalFrames, clipDurationSec, centerTime).startFrame <= Trunc(centerTime * fps)
  {
    var w := Window(fps, totalFrames, clipDurationSec, centerTime);
    WindowTimes(fps, totalFrames, clipDurationSec, centerTime);
    TruncScaled(w.startTime, centerTime, fps);
  }

  /** For a worst time inside the video, the last frame is at least the
      worst time's frame and at most the frame count. */
  lemma WindowEndFrame(fps: real, totalFrames: int, clipDurationSec: real, centerTime: real)
    requires 0.0 < fps && 0.0 <= clipDurationSec && 0.0 <= centerTime <= Duration(fps, totalFrames)
    ensures Trunc(centerTime * fps) <= Window(fps, totalFrames, clipDurationSec, centerTime).endFrame <= totalFrames
  {
    var w := Window(fps, totalFrames, clipDurationSec, centerTime);
    WindowTimes(fps, totalFrames, clipDurationSec, centerTime);
    TruncScaled(centerTime, w.endTime, fps);
    TruncWithinTotal(w.endTime, fps, totalFrames);
  }

  // ---------------------------------------------------------------------------
  // Properties of the frame loop
  // ---------------------------------------------------------------------------

  /** The frames an effect log sends to video writers, with their files, in order. */
  function WrittenFrames(effects: seq<Effect>): seq<(OutPath, Image)>
  {
    if effects == [] then []
    else (if effects[0].FrameWritten? then [(effects[0].file, effects[0].image)] else []) + WrittenFrames(effects[1..])
  }

  /** The images an effect log saves with `cv2.imwrite`, with their files, in order. */
  function WrittenImages(effects: seq<Effect>): seq<(OutPath, Image)>
  {
    if effects == [] then []
    else (if effects[0].ImageWritten? then [(effects[0].file, effects[0].image)] else []) + WrittenImages(effects[1..])
  }

  lemma {:induction false} WrittenFramesAppend(a: seq<Effect>, b: seq<Effect>)
    ensures WrittenFrames(a + b) == WrittenFrames(a) + WrittenFrames(b)
  {
    if a == [] {
      assert a + b == b;
    } else {
      assert (a + b)[0] == a[0];
      assert (a + b)[1..] == a[1..] + b;
      WrittenFramesAppend(a[1..], b);
    }
  }

  lemma {:induction false} WrittenImagesAppend(a: seq<Effect>, b: seq<Effect>)
    ensures WrittenImages(a + b) == WrittenImages(a) + WrittenImages(b)
  {
    if a == [] {
      assert a + b == b;
    } else {
      assert (a + b)[0] == a[0];
      assert (a + b)[1..] == a[1..] + b;
      WrittenImagesAppend(a[1..], b);
    }
  }

  /** Appending to the effect log in two steps or in one. */
  lemma LogAppend(log: seq<Effect>, a: seq<Effect>, b: seq<Effect>)
    ensures log + a + b == log + (a + b)
  {
  }

  /** One past the last frame the loop can reach: past `end_frame`, or the
      first frame that does not decode. */
  function LoopEnd(job: ClipJob): int
  {
    if job.window.endFrame + 1 < job.file.decodable then job.window.endFrame + 1 else job.file.decodable
  }

  /** What one written frame adds to the loop's writes: the frame to the
      clip, and to the thumbnail when it is the worst frame and none is
      saved yet; the flag and the exception are those of the rest. */
  lemma LoopWrites(job: ClipJob, current: int, saved: bool, frame: Image)
    requires current <= job.window.endFrame && 0 <= current < job.file.decodable
    requires Highlighted(job, current, DecodedFrame(job.video, job.file, current)) == Ok(frame)
    ensures var thumb := current == job.worstFrame && !saved;
      var run := FrameLoop(job, current, saved);
      var rest := FrameLoop(job, current + 1, saved || thumb);
      && WrittenFrames(run.effects) == [(job.clipFile, frame)] + WrittenFrames(rest.effects)
      && WrittenImages(run.effects) == (if thumb then [(job.thumbFile, frame)] else []) + WrittenImages(rest.effects)
      && run.thumbnailSaved == rest.thumbnailSaved && run.failure == rest.failure
  {
    var thumb := current == job.worstFrame && !saved;
    var here := [FrameWritten(job.clipFile, frame)] + (if thumb then [ImageWritten(job.thumbFile, frame)] else []);
    var rest := FrameLoop(job, current + 1, saved || thumb);
    LoopStep(job, current, saved, frame);
    WrittenFramesAppend(here, rest.effects);
    WrittenImagesAppend(here, rest.effects);
    assert WrittenFrames(here) == [(job.clipFile, frame)];
    assert WrittenImages(here) == (if thumb then [(job.thumbFile, frame)] else []);
  }

  /** `frames` are the clip's frames `current, current + 1, ...`, each as
      `Highlighted` makes it. */
  predicate FramesFrom(job: ClipJob, current: int, frames: seq<(OutPath, Image)>)
  {
    forall k :: 0 <= k < |frames| ==>
      frames[k].0 == job.clipFile &&
      Highlighted(job, current + k, DecodedFrame(job.video, job.file, current + k)) == Ok(frames[k].1)
  }

  lemma FramesFromCons(job: ClipJob, current: int, frame: Image, rest: seq<(OutPath, Image)>)
    requires Highlighted(job, current, DecodedFrame(job.video, job.file, current)) == Ok(frame)
    requires FramesFrom(job, current + 1, rest)
    ensures FramesFrom(job, current, [(job.clipFile, frame)] + rest)
  {
    var frames := [(job.clipFile, frame)] + rest;
    forall k | 1 <= k < |frames|
      ensures frames[k].0 == job.clipFile &&
        Highlighted(job, current + k, DecodedFrame(job.video, job.file, current + k)) == Ok(frames[k].1)
    {
      assert frames[k] == rest[k - 1];
      assert current + 1 + (k - 1) == current + k;
    }
  }

  /** The loop writes the frames `current, current + 1, ...` to the clip, each
      as `Highlighted` makes it. */
  lemma {:induction false} LoopFrames(job: ClipJob, current: int, saved: bool)
    ensures FramesFrom(job, current, WrittenFrames(FrameLoop(job, current, saved).effects))
    decreases job.window.endFrame + 1 - current
  {
    if !(current > job.window.endFrame || !(0 <= current < job.file.decodable)) {
      var h := Highlighted(job, current, DecodedFrame(job.video, job.file, current));
      if h.Ok? {
        var thumb := current == job.worstFrame && !saved;
        LoopWrites(job, current, saved, h.value);
        LoopFrames(job, current + 1, saved || thumb);
        FramesFromCons(job, current, h.value, WrittenFrames(FrameLoop(job, current + 1, saved || thumb).effects));
      }
    }
  }

  /** A loop run from `current` that wrote `count` frames stopped where it
      should: without an exception at `LoopEnd`, with one at the frame right
      after the last one written, whose spotlight raised. */
  predicate StopsRight(job: ClipJob, current: int, count: nat, failed: bool)
  {
    && (!failed ==> count == (if 0 <= current < LoopEnd(job) then LoopEnd(job) - current else 0))
    && (failed ==>
          0 <= current + count < LoopEnd(job) &&
          Highlighted(job, current + count, DecodedFrame(job.video, job.file, current + count)).Err?)
  }

  /** One more frame written before a run that stopped right. */
  lemma StopsRightStep(job: ClipJob, current: int, count: nat, failed: bool)
    requires current <= job.window.endFrame && 0 <= current < job.file.decodable
    requires StopsRight(job, current + 1, count, failed)
    ensures StopsRight(job, current, count + 1, failed)
  {
    assert current + 1 + count == current + (count + 1);
  }

  /** Without an exception the loop stops at `LoopEnd`; an exception is
      raised by the frame right after the last one written. */
  lemma {:induction false} LoopFrameCount(job: ClipJob, current: int, saved: bool)
    ensures StopsRight(job, current, |WrittenFrames(FrameLoop(job, current, saved).effects)|, FrameLoop(job, current, saved).failure.Some?)
    decreases job.window.endFrame + 1 - current
  {
    if !(current > job.window.endFrame || !(0 <= current < job.file.decodable)) {
      var h := Highlighted(job, current, DecodedFrame(job.video, job.file, current));
      if h.Ok? {
        var thumb := current == job.worstFrame && !saved;
        var rest := FrameLoop(job, current + 1, saved || thumb);
        LoopWrites(job, current, saved, h.value);
        LoopFrameCount(job, current + 1, saved || thumb);
        StopsRightStep(job, current, |WrittenFrames(rest.effects)|, rest.failure.Some?);
        assert |WrittenFrames(FrameLoop(job, current, saved).effects)| == |WrittenFrames(rest.effects)| + 1;
      }
    }
  }

  /** The loop saves the thumbnail at most once, never once it is saved,
      and only from the worst frame, as the clip shows it; its flag says
      whether it was saved. */
  lemma {:induction false} LoopThumbnail(job: ClipJob, current: int, saved: bool)
    ensures |WrittenImages(FrameLoop(job, current, saved).effects)| <= 1
    ensures saved ==> WrittenImages(FrameLoop(job, current, saved).effects) == []
    ensures FrameLoop(job, current, saved).thumbnailSaved <==> saved || WrittenImages(FrameLoop(job, current, saved).effects) != []
    ensures WrittenImages(FrameLoop(job, current, saved).effects) != [] ==>
      current <= job.worstFrame < LoopEnd(job) &&
      WrittenImages(FrameLoop(job, current, saved).effects)[0].0 == job.thumbFile &&
      Highlighted(job, job.worstFrame, DecodedFrame(job.video, job.file, job.worstFrame)) ==
        Ok(WrittenImages(FrameLoop(job, current, saved).effects)[0].1)
    decreases job.window.endFrame + 1 - current
  {
    if !(current > job.window.endFrame || !(0 <= current < job.file.decodable)) {
      var h := Highlighted(job, current, DecodedFrame(job.video, job.file, current));
      if h.Ok? {
        var thumb := current == job.worstFrame && !saved;
        LoopWrites(job, current, saved, h.value);
        LoopThumbnail(job, current + 1, saved || thumb);
      }
    }
  }

  /** Conversely, a loop that runs through the worst frame without an
      exception saves the thumbnail there. */
  lemma {:induction false} LoopThumbnailReached(job: ClipJob, current: int)
    requires 0 <= current <= job.worstFrame < LoopEnd(job)
    requires FrameLoop(job, current, false).failure.None?
    ensures Highlighted(job, job.worstFrame, DecodedFrame(job.video, job.file, job.worstFrame)).Ok?
    ensures WrittenImages(FrameLoop(job, current, false).effects) ==
      [(job.thumbFile, Highlighted(job, job.worstFrame, DecodedFrame(job.video, job.file, job.worstFrame)).value)]
    decreases job.worstFrame - current
  {
    var h := Highlighted(job, current, DecodedFrame(job.video, job.file, current));
    if h.Ok? {
      LoopWrites(job, current, false, h.value);
      if current == job.worstFrame {
        LoopThumbnail(job, current + 1, true);
      } else {
        LoopThumbnailReached(job, current + 1);
      }
    }
  }

  // ---------------------------------------------------------------------------
  // Properties of one clip and of all clips
  // ---------------------------------------------------------------------------

  /** `extract_clip` returns both paths or neither; the paths are the fixed
      `/clips/` names; an unopened source or no usable codec gives
      `(None, None)` without writing anything. */
  lemma ExtractedClipPaths(settings: ClipSettings, files: Files, codecs: set<string>, video: string, sessionId: string,
                           error: AggregatedError, landmarksByFrame: map<int, seq<Landmark>>)
    ensures ExtractedClip(settings, files, codecs, video, sessionId, error, landmarksByFrame).clipPath.Some? <==>
      ExtractedClip(settings, files, codecs, video, sessionId, error, landmarksByFrame).thumbnailPath.Some?
    ensures ExtractedClip(settings, files, codecs, video, sessionId, error, landmarksByFrame).clipPath.Some? ==>
      ExtractedClip(settings, files, codecs, video, sessionId, error, landmarksByFrame).clipPath ==
        Some("/clips/" + sessionId + "_" + error.metric + "_clip.mp4") &&
      ExtractedClip(settings, files, codecs, video, sessionId, error, landmarksByFrame).thumbnailPath ==
        Some("/clips/" + sessionId + "_" + error.metric + "_thumb.jpg")
    ensures !(video in files && files[video].opens) || !(AVC1 in codecs || MP4V in codecs) ==>
      ExtractedClip(settings, files, codecs, video, sessionId, error, landmarksByFrame) == ClipOutcome(None, None, [])
  {
    assert "/clips/" + ClipName(sessionId, error.metric) == "/clips/" + sessionId + "_" + error.metric + "_clip.mp4";
    assert "/clips/" + ThumbName(sessionId, error.metric) == "/clips/" + sessionId + "_" + error.metric + "_thumb.jpg";
  }

  /** Once the source opens and a codec is available, the only exception
      left is the spine lookup on a short landmark list: every other metric,
      or landmark lists of more than 24 entries, always give both paths. */
  lemma ExtractedClipFailure(settings: ClipSettings, files: Files, codecs: set<string>, video: string, sessionId: string,
                             error: AggregatedError, landmarksByFrame: map<int, seq<Landmark>>)
    requires video in files && files[video].opens && (AVC1 in codecs || MP4V in codecs)
    ensures ExtractedClip(settings, files, codecs, video, sessionId, error, landmarksByFrame).clipPath.None? ==>
      error.metric == SPINAL_ANGLE && exists n :: n in landmarksByFrame && |landmarksByFrame[n]| <= 24
  {
    var job := JobFor(settings, video, files[video], sessionId, error, landmarksByFrame);
    var run := FrameLoop(job, job.window.startFrame, false);
    if run.failure.Some? {
      LoopFrameCount(job, job.window.startFrame, false);
      var n := job.window.startFrame + |WrittenFrames(run.effects)|;
      HighlightedCases(job, n, DecodedFrame(job.video, job.file, n));
    } else if !run.thumbnailSaved {
      var middle := MiddleFrame(job.window);
      HighlightedCases(job, middle, DecodedFrame(job.video, job.file, middle));
    }
  }

  /** The frames `extract_clip` writes are the clip's frames in order from the
      window's first frame, each highlighted, all into the clip file. */
  lemma ExtractedClipFrames(settings: ClipSettings, files: Files, codecs: set<string>, video: string, sessionId: string,
                            error: AggregatedError, landmarksByFrame: map<int, seq<Landmark>>)
    requires video in files
    ensures var job := JobFor(settings, video, files[video], sessionId, error, landmarksByFrame);
      FramesFrom(job, job.window.startFrame, WrittenFrames(ExtractedClip(settings, files, codecs, video, sessionId, error, landmarksByFrame).effects))
  {
    var job := JobFor(settings, video, files[video], sessionId, error, landmarksByFrame);
    var run := FrameLoop(job, job.window.startFrame, false);
    LoopFrames(job, job.window.startFrame, false);
    if files[video].opens && (AVC1 in codecs || MP4V in codecs) && run.failure.None? && !run.thumbnailSaved {
      match FallbackThumbnail(job)
      case Err(_) =>
      case Ok(thumb) =>
        WrittenFramesAppend(run.effects, thumb);
        assert WrittenFrames(thumb) == [];
        assert WrittenFrames(run.effects + thumb) == WrittenFrames(run.effects);
    }
  }

  /** The thumbnail rule of `extract_clip` for the writes `effects` of a run
      of `job` (`running` when the video opened and a codec was found): at
      most one thumbnail, into the thumbnail file. When the loop runs
      through the worst frame without an exception, it is that frame as the
      clip shows it. When the loop ends without reaching it, it is the middle
      frame as the clip shows it, if that frame decodes, and none otherwise.
      After an exception it is at most the worst frame, saved before. With no
      video or no codec nothing is written. */
  predicate ThumbnailRule(job: ClipJob, running: bool, effects: seq<Effect>)
  {
    var images := WrittenImages(effects);
    var run := FrameLoop(job, job.window.startFrame, false);
    var reached := 0 <= job.window.startFrame <= job.worstFrame < LoopEnd(job);
    var worst := Highlighted(job, job.worstFrame, DecodedFrame(job.video, job.file, job.worstFrame));
    var middle := MiddleFrame(job.window);
    var fallback := Highlighted(job, middle, DecodedFrame(job.video, job.file, middle));
    var middleShown := 0 <= middle < job.file.decodable && fallback.Ok?;
    && |images| <= 1
    && (!running ==> images == [])
    && (running && run.failure.None? && reached ==> worst.Ok? && images == [(job.thumbFile, worst.value)])
    && (running && run.failure.None? && !reached ==>
          (middleShown ==> images == [(job.thumbFile, fallback.value)]) &&
          (!middleShown ==> images == []))
    && (running && run.failure.Some? && images != [] ==> worst.Ok? && images == [(job.thumbFile, worst.value)])
  }

  /** `extract_clip` follows the thumbnail rule. */
  lemma ExtractedClipThumbnail(settings: ClipSettings, files: Files, codecs: set<string>, video: string, sessionId: string,
                               error: AggregatedError, landmarksByFrame: map<int, seq<Landmark>>)
    requires video in files
    ensures ThumbnailRule(JobFor(settings, video, files[video], sessionId, error, landmarksByFrame),
                          files[video].opens && (AVC1 in codecs || MP4V in codecs),
                          ExtractedClip(settings, files, codecs, video, sessionId, error, landmarksByFrame).effects)
  {
    var job := JobFor(settings, video, files[video], sessionId, error, landmarksByFrame);
    var run := FrameLoop(job, job.window.startFrame, false);
    LoopThumbnail(job, job.window.startFrame, false);
    if 0 <= job.window.startFrame <= job.worstFrame < LoopEnd(job) && run.failure.None? {
      LoopThumbnailReached(job, job.window.startFrame);
    }
    if files[video].opens && (AVC1 in codecs || MP4V in codecs) && run.failure.None? && !run.thumbnailSaved {
      match FallbackThumbnail(job)
      case Err(_) =>
      case Ok(thumb) =>
        WrittenImagesAppend(run.effects, thumb);
        assert WrittenImages(run.effects) == [];
        assert WrittenImages(run.effects + thumb) == WrittenImages(thumb);
    }
  }

  /** What one `extract_clip` writes: the clip frames from `start_frame` on,
      consecutive and highlighted, into the clip file, and the thumbnail the
      thumbnail rule prescribes. */
  lemma ExtractedClipWrites(settings: ClipSettings, files: Files, codecs: set<string>, video: string, sessionId: string,
                            error: AggregatedError, landmarksByFrame: map<int, seq<Landmark>>)
    requires video in files
    ensures var job := JobFor(settings, video, files[video], sessionId, error, landmarksByFrame);
      var effects := ExtractedClip(settings, files, codecs, video, sessionId, error, landmarksByFrame).effects;
      && FramesFrom(job, job.window.startFrame, WrittenFrames(effects))
      && ThumbnailRule(job, files[video].opens && (AVC1 in codecs || MP4V in codecs), effects)
  {
    ExtractedClipFrames(settings, files, codecs, video, sessionId, error, landmarksByFrame);
    ExtractedClipThumbnail(settings, files, codecs, video, sessionId, error, landmarksByFrame);
  }

  /** `extract_all_clips` keeps length and order and changes only the two
      path fields, each set to what `extract_clip` returns for that error. */
  lemma {:induction false} AllClipsShape(settings: ClipSettings, files: Files, codecs: set<string>, video: string, sessionId: string,
                                         errors: seq<AggregatedError>, landmarksByFrame: map<int, seq<Landmark>>)
    ensures |AllClips(settings, files, codecs, video, sessionId, errors, landmarksByFrame).0| == |errors|
    ensures forall k :: 0 <= k < |errors| ==>
      AllClips(settings, files, codecs, video, sessionId, errors, landmarksByFrame).0[k].(
        clipPath := errors[k].clipPath, thumbnailPath := errors[k].thumbnailPath) == errors[k] &&
      AllClips(settings, files, codecs, video, sessionId, errors, landmarksByFrame).0[k].clipPath ==
        ExtractedClip(settings, files, codecs, video, sessionId, errors[k], landmarksByFrame).clipPath &&
      AllClips(settings, files, codecs, video, sessionId, errors, landmarksByFrame).0[k].thumbnailPath ==
        ExtractedClip(settings, files, codecs, video, sessionId, errors[k], landmarksByFrame).thumbnailPath
  {
    if errors != [] {
      var tail := errors[1..];
      AllClipsShape(settings, files, codecs, video, sessionId, tail, landmarksByFrame);
      var all := AllClips(settings, files, codecs, video, sessionId, errors, landmarksByFrame).0;
      var rest := AllClips(settings, files, codecs, video, sessionId, tail, landmarksByFrame).0;
      assert all == [WithClip(errors[0], ExtractedClip(settings, files, codecs, video, sessionId, errors[0], landmarksByFrame))] + rest;
      forall k | 1 <= k < |errors|
        ensures all[k] == WithClip(errors[k], ExtractedClip(settings, files, codecs, video, sessionId, errors[k], landmarksByFrame))
      {
        assert all[k] == rest[k - 1] && tail[k - 1] == errors[k];
      }
    }
  }
}
