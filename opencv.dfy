/** The slice of OpenCV the services rely on. Pixels stay symbolic: an
    `Image` records where it came from and which kernels were applied, and
    the kernels themselves are not modelled. A video file is what its
    container reports plus how many frames actually decode; handles count
    as open until released, and every file the services write is appended
    to one effect log. */
module OpenCv {
  import opened PyBuiltins

  datatype Image =
    | Frame(path: string, index: int, h: int, w: int)     // a decoded BGR frame
    | BgrToRgb(src: Image)                                // cv2.cvtColor(..., COLOR_BGR2RGB)
    | Crop(src: Image, y0: int, x0: int, ch: int, cw: int) // image[y0:y0+ch, x0:x0+cw]
    | Resize(src: Image, h: int, w: int)                  // cv2.resize(src, (w, h))
    | Clahe(src: Image, clipLimit: real, tileGrid: int)   // CLAHE on the L channel of LAB
    | UnsharpMask(src: Image, ksize: int, sigma: real, alpha: real)
    | Spotlight(src: Image, points: seq<(int, int)>)      // rings drawn at the points

  function Height(img: Image): int
  {
    match img
    case Frame(_, _, h, _) => h
    case Crop(_, _, _, ch, _) => ch
    case Resize(_, h, _) => h
    case BgrToRgb(src) => Height(src)
    case Clahe(src, _, _) => Height(src)
    case UnsharpMask(src, _, _, _) => Height(src)
    case Spotlight(src, _) => Height(src)
  }

  function Width(img: Image): int
  {
    match img
    case Frame(_, _, _, w) => w
    case Crop(_, _, _, _, cw) => cw
    case Resize(_, _, w) => w
    case BgrToRgb(src) => Width(src)
    case Clahe(src, _, _) => Width(src)
    case UnsharpMask(src, _, _, _) => Width(src)
    case Spotlight(src, _) => Width(src)
  }

  /** A video file: whether it opens, the CAP_PROP_FPS / FRAME_COUNT /
      FRAME_WIDTH / FRAME_HEIGHT properties (floats, as OpenCV returns them)
      and the number of frames that actually decode, from position 0. */
  datatype VideoFile = VideoFile(opens: bool, fps: real, frameCount: real, width: real, height: real, decodable: nat)

  type Files = map<string, VideoFile>

  /** Frame `p` of the video at `path`, at the size the container reports. */
  function DecodedFrame(path: string, file: VideoFile, p: int): (img: Image)
    ensures Height(img) == Trunc(file.height) && Width(img) == Trunc(file.width)
  {
    Frame(path, p, Trunc(file.height), Trunc(file.width))
  }

  /** A file written by the services: `dir` joined with `name`. */
  datatype OutPath = OutPath(dir: string, name: string)

  datatype Effect =
    | FrameWritten(file: OutPath, image: Image)  // VideoWriter.write
    | ImageWritten(file: OutPath, image: Image)  // cv2.imwrite
    | DirectoryMade(dir: string)                 // Path.mkdir(parents=True, exist_ok=True)

  /** The host: what the services have written, and how many handles are open. */
  class Io {
    var log: seq<Effect>
    var openHandles: int

    constructor ()
      ensures log == [] && openHandles == 0
    {
      log := [];
      openHandles := 0;
    }

    method Imwrite(file: OutPath, image: Image)
      modifies this
      ensures log == old(log) + [ImageWritten(file, image)]
      ensures openHandles == old(openHandles)
    {
      log := log + [ImageWritten(file, image)];
    }

    method Mkdir(dir: string)
      modifies this
      ensures log == old(log) + [DirectoryMade(dir)]
      ensures openHandles == old(openHandles)
    {
      log := log + [DirectoryMade(dir)];
    }
  }

  /** `cv2.VideoCapture`: reads advance a position; a read succeeds exactly
      when the capture is open and the position holds a decodable frame. */
  class Capture {
    const path: string
    const file: Option<VideoFile>
    const io: Io
    var pos: int
    var released: bool

    constructor (files: Files, path: string, io: Io)
      modifies io
      ensures this.path == path && this.io == io
      ensures file == if path in files && files[path].opens then Some(files[path]) else None
      ensures pos == 0 && !released
      ensures io.openHandles == old(io.openHandles) + (if file.Some? then 1 else 0)
      ensures io.log == old(io.log)
    {
      this.path := path;
      this.io := io;
      file := if path in files && files[path].opens then Some(files[path]) else None;
      pos := 0;
      released := false;
      new;
      if file.Some? {
        io.openHandles := io.openHandles + 1;
      }
    }

    predicate IsOpened()
      reads this
    {
      file.Some? && !released
    }

    /** The image a successful read at position `p` returns. */
    function FrameAt(p: int): Image
      requires file.Some?
    {
      DecodedFrame(path, file.value, p)
    }

    method Read() returns (ok: bool, frame: Image)
      modifies this
      ensures ok <==> IsOpened() && 0 <= old(pos) < file.value.decodable
      ensures ok ==> frame == FrameAt(old(pos)) && pos == old(pos) + 1
      ensures !ok ==> pos == old(pos)
      ensures released == old(released)
    {
      if IsOpened() && 0 <= pos < file.value.decodable {
        ok, frame := true, FrameAt(pos);
        pos := pos + 1;
      } else {
        ok, frame := false, Frame(path, pos, 0, 0);
      }
    }

    /** `cap.set(cv2.CAP_PROP_POS_FRAMES, p)` */
    method Seek(p: int)
      modifies this
      ensures pos == p && released == old(released)
    {
      pos := p;
    }

    method Release()
      modifies this, io
      ensures released && pos == old(pos)
      ensures io.openHandles == old(io.openHandles) - (if old(IsOpened()) then 1 else 0)
      ensures io.log == old(io.log)
    {
      if IsOpened() {
        io.openHandles := io.openHandles - 1;
      }
      released := true;
    }
  }

  /** `cv2.VideoWriter`: it opens only when the host can encode its codec;
      frames written to it are logged until it is released. */
  class Writer {
    const file: OutPath
    const encoding: bool
    const io: Io
    var released: bool

    constructor (file: OutPath, fourcc: string, codecs: set<string>, io: Io)
      modifies io
      ensures this.file == file && this.io == io
      ensures encoding <==> fourcc in codecs
      ensures !released
      ensures io.openHandles == old(io.openHandles) + (if encoding then 1 else 0)
      ensures io.log == old(io.log)
    {
      this.file := file;
      this.io := io;
      encoding := fourcc in codecs;
      released := false;
      new;
      if encoding {
        io.openHandles := io.openHandles + 1;
      }
    }

    predicate IsOpened()
      reads this
    {
      encoding && !released
    }

    method Write(image: Image)
      modifies io
      ensures io.log == old(io.log) + (if IsOpened() then [FrameWritten(file, image)] else [])
      ensures io.openHandles == old(io.openHandles)
    {
      if IsOpened() {
        io.log := io.log + [FrameWritten(file, image)];
      }
    }

    method Release()
      modifies this, io
      ensures released
      ensures io.openHandles == old(io.openHandles) - (if old(IsOpened()) then 1 else 0)
      ensures io.log == old(io.log)
    {
      if IsOpened() {
        io.openHandles := io.openHandles - 1;
      }
      released := true;
    }
  }
}
