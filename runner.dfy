/** The command-line runner: listing a folder's images, classifying a source,
    the frame loops of `run_on_path`, and the flag precedence of `main`. The
    file system, the capture device, the keyboard and the image operations of
    OpenCV are all inputs, gathered in a `World`. */
module Runner {
  import opened Wrappers
  import opened Seqs
  import opened Builtins
  import opened Paths
  import opened Frames
  import opened Detector
  import opened Annotate

  // -----------------------------------------------------------------------
  // list_images

  /** The extensions of the patterns `*.jpg`, `*.jpeg` and `*.png`, in order. */
  const ImageExtensions: seq<string> := [".jpg", ".jpeg", ".png"]

  /** Whether the pattern `*ext` matches a directory entry: the match is
      case-sensitive, and `*` does not match a leading '.', so hidden files
      are not listed. */
  predicate GlobMatch(name: string, ext: string)
  {
    name != [] && name[0] != '.' && EndsWith(name, ext)
  }

  /** `f` is what the pattern `*ext` yields for some entry of `dir`. */
  predicate Globbed(dir: string, entries: seq<string>, ext: string, f: string)
  {
    exists i :: 0 <= i < |entries| && GlobMatch(entries[i], ext) && f == Join(dir, entries[i])
  }

  /** `glob.glob(os.path.join(dir, "*" + ext))` for a directory whose
      entries are `entries`, in directory order. */
  function Glob(dir: string, entries: seq<string>, ext: string): (r: seq<string>)
    ensures forall f :: f in r <==> Globbed(dir, entries, ext, f)
    decreases |entries|
  {
    if entries == [] then []
    else
      var rest := Glob(dir, entries[1..], ext);
      assert forall i :: 0 < i < |entries| ==> entries[i] == entries[1..][i - 1];
      assert forall j :: 0 <= j < |entries[1..]| ==> entries[1..][j] == entries[j + 1];
      (if GlobMatch(entries[0], ext) then [Join(dir, entries[0])] else []) + rest
  }

  /** The globs of every extension of `exts`, one after the other. */
  function GlobAll(dir: string, entries: seq<string>, exts: seq<string>): seq<string>
    decreases |exts|
  {
    if exts == [] then []
    else GlobAll(dir, entries, exts[..|exts| - 1]) + Glob(dir, entries, exts[|exts| - 1])
  }

  /** What `list_images(dir)` returns. */
  function ImageListing(dir: string, entries: seq<string>): seq<string>
  {
    SortStrings(GlobAll(dir, entries, ImageExtensions))
  }

  /** `f` names an entry of `dir` that one of the image patterns matches. */
  predicate ListedEntry(dir: string, entries: seq<string>, f: string)
  {
    exists k :: 0 <= k < |ImageExtensions| && Globbed(dir, entries, ImageExtensions[k], f)
  }

  lemma {:induction false} GlobAllSound(dir: string, entries: seq<string>, exts: seq<string>, f: string)
    requires f in GlobAll(dir, entries, exts)
    ensures exists k :: 0 <= k < |exts| && Globbed(dir, entries, exts[k], f)
    decreases |exts|
  {
    var front, last := exts[..|exts| - 1], exts[|exts| - 1];
    var g, l := GlobAll(dir, entries, front), Glob(dir, entries, last);
    assert f in g + l;
    if f in g {
      GlobAllSound(dir, entries, front, f);
      var k :| 0 <= k < |front| && Globbed(dir, entries, front[k], f);
      assert exts[k] == front[k];
    } else {
      assert Globbed(dir, entries, exts[|exts| - 1], f);
    }
  }

  lemma {:induction false} GlobAllComplete(dir: string, entries: seq<string>, exts: seq<string>, k: nat, f: string)
    requires k < |exts| && Globbed(dir, entries, exts[k], f)
    ensures f in GlobAll(dir, entries, exts)
    decreases |exts|
  {
    var front, last := exts[..|exts| - 1], exts[|exts| - 1];
    var g, l := GlobAll(dir, entries, front), Glob(dir, entries, last);
    assert GlobAll(dir, entries, exts) == g + l;
    if k < |front| {
      assert front[k] == exts[k];
      GlobAllComplete(dir, entries, front, k, f);
      assert f in g;
    } else {
      assert f in l;
    }
  }

  lemma GlobAllMembers(dir: string, entries: seq<string>, exts: seq<string>, f: string)
    ensures f in GlobAll(dir, entries, exts) <==> exists k :: 0 <= k < |exts| && Globbed(dir, entries, exts[k], f)
  {
    if f in GlobAll(dir, entries, exts) {
      GlobAllSound(dir, entries, exts, f);
    }
    if exists k :: 0 <= k < |exts| && Globbed(dir, entries, exts[k], f) {
      var k :| 0 <= k < |exts| && Globbed(dir, entries, exts[k], f);
      GlobAllComplete(dir, entries, exts, k, f);
    }
  }

  /** The listing holds exactly the matching entries, each joined to the
      directory. */
  lemma ListingMembers(dir: string, entries: seq<string>, f: string)
    ensures f in ImageListing(dir, entries) <==> ListedEntry(dir, entries, f)
  {
    var all := GlobAll(dir, entries, ImageExtensions);
    GlobAllMembers(dir, entries, ImageExtensions, f);
    assert f in ImageListing(dir, entries) <==> f in multiset(ImageListing(dir, entries));
    assert f in all <==> f in multiset(all);
  }

  /** `list_images(path)`: the three globs concatenated, then sorted in place. */
  method ListImages(path: string, entries: seq<string>) returns (files: seq<string>)
    ensures files == ImageListing(path, entries)
    ensures Sorted(files)
    ensures forall f :: f in files <==> ListedEntry(path, entries, f)
  {
    files := [];
    for k := 0 to |ImageExtensions|
      invariant files == GlobAll(path, entries, ImageExtensions[..k])
    {
      assert ImageExtensions[..k + 1][..k] == ImageExtensions[..k];
      files := files + Glob(path, entries, ImageExtensions[k]);
    }
    assert ImageExtensions[..|ImageExtensions|] == ImageExtensions;
    files := SortStrings(files);
    forall f ensures f in files <==> ListedEntry(path, entries, f) {
      ListingMembers(path, entries, f);
    }
  }

  /** Every listed path ends in one of `.jpg`, `.jpeg` or `.png`. */
  lemma ListingExtensions(dir: string, entries: seq<string>, f: string)
    requires f in ImageListing(dir, entries)
    ensures EndsWithAny(f, ImageExtensions)
  {
    ListingMembers(dir, entries, f);
    var k :| 0 <= k < |ImageExtensions| && Globbed(dir, entries, ImageExtensions[k], f);
    var i :| 0 <= i < |entries| && GlobMatch(entries[i], ImageExtensions[k]) && f == Join(dir, entries[i]);
    EndsWithTransitive(f, entries[i], ImageExtensions[k]);
  }

  /** The patterns are case-sensitive and skip hidden files: an upper-case
      extension and a dotfile are not listed. */
  lemma UpperCaseAndHiddenNotListed(dir: string)
    ensures ImageListing(dir, ["A.JPG", ".hidden.jpg"]) == []
  {
    var entries := ["A.JPG", ".hidden.jpg"];
    NoPatternMatches(entries);
    forall f ensures f !in GlobAll(dir, entries, ImageExtensions) {
      GlobAllMembers(dir, entries, ImageExtensions, f);
    }
    var all := GlobAll(dir, entries, ImageExtensions);
    if all != [] {
      HeadIsMember(all);
      assert false;
    }
  }

  lemma NoPatternMatches(entries: seq<string>)
    requires entries == ["A.JPG", ".hidden.jpg"]
    ensures forall k, i :: 0 <= k < |ImageExtensions| && 0 <= i < |entries| ==> !GlobMatch(entries[i], ImageExtensions[k])
  {
    forall k, i | 0 <= k < |ImageExtensions| && 0 <= i < |entries|
      ensures !GlobMatch(entries[i], ImageExtensions[k])
    {
      if i == 0 {
        var e := ImageExtensions[k];
        var tail := entries[0][|entries[0]| - |e|..];
        if k == 0 { assert tail[1] != e[1]; }
        else if k == 1 { assert tail[0] != e[0]; }
        else { assert tail[1] != e[1]; }
      }
    }
  }

  // -----------------------------------------------------------------------
  // The world around the run

  /** What `run_on_path` is asked to open: a camera index or a path or URL. */
  datatype Source = Camera(index: int) | Location(path: string)

  /** The file system as `os.path.isdir`, `os.listdir` and `cv2.imread` see
      it: directories with their entries in directory order, and files with
      what `imread` makes of them (None when it cannot decode the file). */
  datatype FileSystem = FileSystem(dirs: map<string, seq<string>>, files: map<string, Option<Image>>)

  /** `cv2.imread(p)`: None for a path that is no readable image file. */
  function ReadImage(fs: FileSystem, p: string): Option<Image>
  {
    if p in fs.files then fs.files[p] else None
  }

  /** Everything the run takes from outside: the file system; for each source
      `cv2.VideoCapture` can open, what its successive `read()` calls return
      (None for `ret == False`); the codes successive `cv2.waitKey` calls
      return (-1, no key, once they are used up); the loaded model's class
      table, or None when loading the model raises; the warning distance of
      the configuration; and `cv2.resize` to 640x640, `dehaze_image` and the
      model call as functions. */
  datatype World = World(
    fs: FileSystem,
    streams: map<Source, seq<Option<Image>>>,
    keys: seq<int>,
    model: Option<Names>,
    warnDistance: real,
    resize: Image -> Image,
    dehaze: Image -> Image,
    infer: Image -> Inference)

  /** The options of a run: the output directory, whether to show frames,
      and whether to beep. */
  datatype Settings = Settings(outputDir: Option<string>, show: bool, beep: bool)

  /** An image written to disk: its path, the frame, and what was drawn on it. */
  datatype Output = Output(path: string, image: Image, drawn: seq<Draw>)

  /** What a loop did: the frames it annotated, what it wrote, and the beeps
      it scheduled. */
  datatype Trace = Trace(frames: nat, written: seq<Output>, beeps: nat)

  const Nothing: Trace := Trace(0, [], 0)

  /** One trace after another. */
  function Then(a: Trace, b: Trace): Trace
  {
    Trace(a.frames + b.frames, a.written + b.written, a.beeps + b.beeps)
  }

  lemma ThenAssociative(a: Trace, b: Trace, c: Trace)
    ensures Then(Then(a, b), c) == Then(a, Then(b, c))
  {
    AppendAssoc(a.written, b.written, c.written);
  }

  lemma ThenNothing(a: Trace)
    ensures Then(a, Nothing) == a
    ensures Then(Nothing, a) == a
  {
    assert a.written + [] == a.written;
    assert [] + a.written == a.written;
  }

  /** Python truthiness of an optional string: neither None nor empty. */
  predicate Truthy(s: Option<string>)
  {
    s.Some? && s.value != []
  }

  /** `cv2.waitKey(...)` for the `k`-th call. */
  function KeyAt(keys: seq<int>, k: nat): int
  {
    if k < |keys| then keys[k] else -1
  }

  /** `key & 0xFF == ord('q')`. */
  predicate Quit(key: int)
  {
    key % 256 == 'q' as int
  }

  /** `& 0xFF` keeps the low byte of the key code: 'q' quits also with bits
      set above that byte; no key (-1, whose low byte is 255) and 'Q' do not. */
  lemma QuitOnLowByte()
    ensures Quit('q' as int) && Quit('q' as int + 256)
    ensures !Quit(-1) && !Quit('Q' as int)
  {
  }

  /** One frame through resize, dehazing, detection and annotation. */
  datatype Annotated = Annotated(image: Image, drawn: seq<Draw>, alerts: nat)

  function ProcessFrame(w: World, names: Names, beep: bool, raw: Image): Annotated
  {
    var frame := w.resize(raw);
    var detections := Detections(names, w.infer(w.dehaze(frame)));
    var height := frame.rows as real;
    Annotated(frame, Annotations(detections, height, w.warnDistance),
      if beep then |Risky(detections, height, w.warnDistance)| else 0)
  }

  // -----------------------------------------------------------------------
  // The two loops, as functions of the world

  /** The image loop over `paths`, the `k`-th key being the next one read. */
  function ImageLoop(w: World, s: Settings, names: Names, paths: seq<string>, k: nat): Trace
    decreases |paths|
  {
    if paths == [] then Nothing
    else
      match ReadImage(w.fs, paths[0])
      case None => ImageLoop(w, s, names, paths[1..], k)
      case Some(raw) =>
        var a := ProcessFrame(w, names, s.beep, raw);
        var out := if Truthy(s.outputDir) then [Output(Join(s.outputDir.value, Basename(paths[0])), a.image, a.drawn)] else [];
        var step := Trace(1, out, a.alerts);
        if s.show && Quit(KeyAt(w.keys, k)) then step
        else Then(step, ImageLoop(w, s, names, paths[1..], if s.show then k + 1 else k))
  }

  /** The video loop over what the capture still returns. */
  function VideoLoop(w: World, s: Settings, names: Names, frames: seq<Option<Image>>, k: nat): Trace
    decreases |frames|
  {
    if frames == [] || frames[0].None? then Nothing
    else
      var a := ProcessFrame(w, names, s.beep, frames[0].value);
      var out := if Truthy(s.outputDir) then [Output(Join(s.outputDir.value, "output.mp4"), a.image, a.drawn)] else [];
      var step := Trace(1, out, a.alerts);
      if s.show && Quit(KeyAt(w.keys, k)) then step
      else Then(step, VideoLoop(w, s, names, frames[1..], if s.show then k + 1 else k))
  }

  /** How `run_on_path` ends: the model fails to load (raised), the stream
      cannot be opened (a message, no exception), the input path does not
      exist (`FileNotFoundError`), or the loops ran. */
  datatype RunOutcome = ModelLoadFailed | CannotOpen | NotFound(path: string) | Ran(trace: Trace)

  /** An int, a string starting with "http", or a string whose lower-case
      form ends in a video extension is opened as a video stream. */
  predicate IsStream(source: Source)
  {
    match source
    case Camera(_) => true
    case Location(p) => StartsWith(p, "http") || EndsWithAny(Lower(p), [".mp4", ".avi", ".mov"])
  }

  /** The video-extension test ignores case: a path ending in ".MP4" is
      opened as a video, whatever comes before it. */
  lemma VideoExtensionAnyCase(stem: string)
    ensures IsStream(Location(stem + ".MP4"))
  {
    LowerAppend(stem, ".MP4");
    assert Lower(".MP4") == ".mp4";
    var low := Lower(stem + ".MP4");
    assert low[|low| - 4..] == ".mp4";
    assert EndsWith(low, [".mp4", ".avi", ".mov"][0]);
  }

  /** The images a non-stream path stands for: a directory's listing, a file
      by itself, or None when the path is neither. */
  function ImagesOf(fs: FileSystem, p: string): Option<seq<string>>
  {
    if p in fs.dirs then Some(ImageListing(p, fs.dirs[p]))
    else if p in fs.files then Some([p])
    else None
  }

  /** What `run_on_path(source, output_dir, show, beep)` does. */
  function Run(w: World, s: Settings, source: Source): RunOutcome
  {
    if w.model.None? then ModelLoadFailed
    else if IsStream(source) then
      if source in w.streams then Ran(VideoLoop(w, s, w.model.value, w.streams[source], 0)) else CannotOpen
    else
      match ImagesOf(w.fs, source.path)
      case None => NotFound(source.path)
      case Some(paths) => Ran(ImageLoop(w, s, w.model.value, paths, 0))
  }

  // -----------------------------------------------------------------------
  // run_on_path

  /** Resize, dehaze, detect and annotate one frame, scheduling its beeps. */
  method AnnotateFrame(w: World, detector: VehicleDetector, beep: bool, raw: Image, alerts: AlertSink)
    returns (a: Annotated)
    requires detector.allowedClasses == AllowedClasses
    modifies alerts
    ensures a == ProcessFrame(w, detector.names, beep, raw)
    ensures alerts.scheduled == old(alerts.scheduled) + a.alerts
  {
    var frame := w.resize(raw);
    var enhanced := w.dehaze(frame);
    var detections := detector.Detect(w.infer(enhanced));
    var canvas := new Canvas(frame);
    AnnotateAndAlert(canvas, detections, beep, w.warnDistance, alerts);
    a := Annotated(frame, canvas.drawn, if beep then |Risky(detections, frame.rows as real, w.warnDistance)| else 0);
  }

  lemma ImageLoopStep(w: World, s: Settings, names: Names, paths: seq<string>, i: nat, k: nat)
    requires i < |paths|
    ensures ImageLoop(w, s, names, paths[i..], k) ==
      match ReadImage(w.fs, paths[i])
      case None => ImageLoop(w, s, names, paths[i + 1..], k)
      case Some(raw) =>
        var a := ProcessFrame(w, names, s.beep, raw);
        var out := if Truthy(s.outputDir) then [Output(Join(s.outputDir.value, Basename(paths[i])), a.image, a.drawn)] else [];
        var step := Trace(1, out, a.alerts);
        if s.show && Quit(KeyAt(w.keys, k)) then step
        else Then(step, ImageLoop(w, s, names, paths[i + 1..], if s.show then k + 1 else k))
  {
    assert paths[i..][0] == paths[i] && paths[i..][1..] == paths[i + 1..];
  }

  /** The image loop of `run_on_path`: unreadable images are skipped, each
      image is written under its base name, and 'q' ends the loop. */
  method RunImages(w: World, s: Settings, detector: VehicleDetector, images: seq<string>, alerts: AlertSink)
    returns (trace: Trace)
    requires detector.allowedClasses == AllowedClasses
    modifies alerts
    ensures trace == ImageLoop(w, s, detector.names, images, 0)
    ensures alerts.scheduled == old(alerts.scheduled) + trace.beeps
  {
    ghost var total := ImageLoop(w, s, detector.names, images, 0);
    trace := Nothing;
    var k := 0;
    ThenNothing(total);
    assert images[0..] == images;
    for i := 0 to |images|
      invariant Then(trace, ImageLoop(w, s, detector.names, images[i..], k)) == total
      invariant alerts.scheduled == old(alerts.scheduled) + trace.beeps
    {
      ImageLoopStep(w, s, detector.names, images, i, k);
      var frame := ReadImage(w.fs, images[i]);
      if frame.None? {
        continue;
      }
      var a := AnnotateFrame(w, detector, s.beep, frame.value, alerts);
      var step := Trace(1, [], a.alerts);
      if Truthy(s.outputDir) {
        step := Trace(1, [Output(Join(s.outputDir.value, Basename(images[i])), a.image, a.drawn)], a.alerts);
      }
      ThenAssociative(trace, step, ImageLoop(w, s, detector.names, images[i + 1..], if s.show then k + 1 else k));
      ThenNothing(Then(trace, step));
      trace := Then(trace, step);
      if s.show {
        var key := KeyAt(w.keys, k);
        k := k + 1;
        if Quit(key) {
          break;
        }
      }
    }
  }

  lemma VideoLoopStep(w: World, s: Settings, names: Names, frames: seq<Option<Image>>, i: nat, k: nat)
    requires i < |frames| && frames[i].Some?
    ensures VideoLoop(w, s, names, frames[i..], k) ==
      var a := ProcessFrame(w, names, s.beep, frames[i].value);
      var out := if Truthy(s.outputDir) then [Output(Join(s.outputDir.value, "output.mp4"), a.image, a.drawn)] else [];
      var step := Trace(1, out, a.alerts);
      if s.show && Quit(KeyAt(w.keys, k)) then step
      else Then(step, VideoLoop(w, s, names, frames[i + 1..], if s.show then k + 1 else k))
  {
    assert frames[i..][0] == frames[i] && frames[i..][1..] == frames[i + 1..];
  }

  /** The video loop of `run_on_path`: read until the capture fails, write
      every annotated frame to `output.mp4`, and stop on 'q'. */
  method RunVideo(w: World, s: Settings, detector: VehicleDetector, frames: seq<Option<Image>>, alerts: AlertSink)
    returns (trace: Trace)
    requires detector.allowedClasses == AllowedClasses
    modifies alerts
    ensures trace == VideoLoop(w, s, detector.names, frames, 0)
    ensures alerts.scheduled == old(alerts.scheduled) + trace.beeps
  {
    ghost var total := VideoLoop(w, s, detector.names, frames, 0);
    trace := Nothing;
    var k := 0;
    ThenNothing(total);
    assert frames[0..] == frames;
    for i := 0 to |frames|
      invariant Then(trace, VideoLoop(w, s, detector.names, frames[i..], k)) == total
      invariant alerts.scheduled == old(alerts.scheduled) + trace.beeps
    {
      if frames[i].None? {
        assert frames[i..][0].None?;
        ThenNothing(trace);
        break;
      }
      VideoLoopStep(w, s, detector.names, frames, i, k);
      var a := AnnotateFrame(w, detector, s.beep, frames[i].value, alerts);
      var step := Trace(1, [], a.alerts);
      if Truthy(s.outputDir) {
        step := Trace(1, [Output(Join(s.outputDir.value, "output.mp4"), a.image, a.drawn)], a.alerts);
      }
      ThenAssociative(trace, step, VideoLoop(w, s, detector.names, frames[i + 1..], if s.show then k + 1 else k));
      ThenNothing(Then(trace, step));
      trace := Then(trace, step);
      if s.show {
        var key := KeyAt(w.keys, k);
        k := k + 1;
        if Quit(key) {
          break;
        }
      }
    }
  }

  /** `run_on_path(source, output_dir, show, beep)`. */
  method RunOnPath(w: World, s: Settings, source: Source, alerts: AlertSink) returns (outcome: RunOutcome)
    modifies alerts
    ensures outcome == Run(w, s, source)
    ensures alerts.scheduled == old(alerts.scheduled) + (if outcome.Ran? then outcome.trace.beeps else 0)
  {
    if w.model.None? {
      return ModelLoadFailed;
    }
    var detector := new VehicleDetector(w.model.value);
    if IsStream(source) {
      if source !in w.streams {
        return CannotOpen;
      }
      var trace := RunVideo(w, s, detector, w.streams[source], alerts);
      return Ran(trace);
    }
    var images: seq<string>;
    if source.path in w.fs.dirs {
      images := ListImages(source.path, w.fs.dirs[source.path]);
    } else if source.path in w.fs.files {
      images := [source.path];
    } else {
      return NotFound(source.path);
    }
    var trace := RunImages(w, s, detector, images, alerts);
    return Ran(trace);
  }

  // -----------------------------------------------------------------------
  // Properties of the loops

  /** `imread` succeeds on `p`. */
  function Readable(fs: FileSystem): string -> bool
  {
    p => ReadImage(fs, p).Some?
  }

  /** With an output directory every annotated image is written, once;
      without one nothing is. */
  lemma {:induction false} ImageOutputsPerFrame(w: World, s: Settings, names: Names, paths: seq<string>, k: nat)
    ensures Truthy(s.outputDir) ==> |ImageLoop(w, s, names, paths, k).written| == ImageLoop(w, s, names, paths, k).frames
    ensures !Truthy(s.outputDir) ==> ImageLoop(w, s, names, paths, k).written == []
    decreases |paths|
  {
    if paths != [] {
      var k' := if s.show then k + 1 else k;
      if ReadImage(w.fs, paths[0]).Some? {
        ImageOutputsPerFrame(w, s, names, paths[1..], k');
        ImageLoopHead(w, s, names, paths, k);
      } else {
        ImageOutputsPerFrame(w, s, names, paths[1..], k);
      }
    }
  }

  /** The paths of the written images, in order. */
  function WrittenPaths(outs: seq<Output>): seq<string>
    decreases |outs|
  {
    if outs == [] then [] else [outs[0].path] + WrittenPaths(outs[1..])
  }

  /** Each input path's base name, inside `dir`. */
  function OutputPaths(dir: string, paths: seq<string>): seq<string>
    decreases |paths|
  {
    if paths == [] then [] else [Join(dir, Basename(paths[0]))] + OutputPaths(dir, paths[1..])
  }

  /** Without the window, the loop goes through every path: each readable
      image is annotated, unreadable ones are skipped, and with an output
      directory each readable image is written, in order, under its base name. */
  lemma ImagesWithoutWindow(w: World, s: Settings, names: Names, paths: seq<string>, k: nat)
    requires !s.show
    ensures ImageLoop(w, s, names, paths, k).frames == |Filter(Readable(w.fs), paths)|
    ensures Truthy(s.outputDir) ==>
      WrittenPaths(ImageLoop(w, s, names, paths, k).written) == OutputPaths(s.outputDir.value, Filter(Readable(w.fs), paths))
  {
    FramesWithoutWindow(w, s, names, paths, k);
    WritesWithoutWindow(w, s, names, paths, k);
  }

  lemma {:induction false} FramesWithoutWindow(w: World, s: Settings, names: Names, paths: seq<string>, k: nat)
    requires !s.show
    ensures ImageLoop(w, s, names, paths, k).frames == |Filter(Readable(w.fs), paths)|
    decreases |paths|
  {
    if paths != [] {
      FramesWithoutWindow(w, s, names, paths[1..], k);
      FilterCons(Readable(w.fs), paths);
      assert Readable(w.fs)(paths[0]) == ReadImage(w.fs, paths[0]).Some?;
      if ReadImage(w.fs, paths[0]).Some? {
        HiddenHead(w, s, names, paths, k);
      } else {
        SkipHead(w, s, names, paths, k);
      }
    }
  }

  lemma {:induction false} WritesWithoutWindow(w: World, s: Settings, names: Names, paths: seq<string>, k: nat)
    requires !s.show
    ensures Truthy(s.outputDir) ==>
      WrittenPaths(ImageLoop(w, s, names, paths, k).written) == OutputPaths(s.outputDir.value, Filter(Readable(w.fs), paths))
    decreases |paths|
  {
    if paths != [] {
      WritesWithoutWindow(w, s, names, paths[1..], k);
      FilterCons(Readable(w.fs), paths);
      assert Readable(w.fs)(paths[0]) == ReadImage(w.fs, paths[0]).Some?;
      if ReadImage(w.fs, paths[0]).Some? {
        HiddenHead(w, s, names, paths, k);
        if Truthy(s.outputDir) {
          OutputPathsCons(s.outputDir.value, paths[0], Filter(Readable(w.fs), paths[1..]));
        }
      } else {
        SkipHead(w, s, names, paths, k);
      }
    }
  }

  lemma OutputPathsCons(dir: string, p: string, rest: seq<string>)
    ensures OutputPaths(dir, [p] + rest) == [Join(dir, Basename(p))] + OutputPaths(dir, rest)
  {
    assert ([p] + rest)[1..] == rest;
  }

  /** An unreadable first image is skipped without reading a key. */
  lemma SkipHead(w: World, s: Settings, names: Names, paths: seq<string>, k: nat)
    requires paths != [] && ReadImage(w.fs, paths[0]).None?
    ensures ImageLoop(w, s, names, paths, k) == ImageLoop(w, s, names, paths[1..], k)
  {
  }

  /** A readable first image without the window: one frame, then the rest;
      with an output directory, its own write heads the rest's. */
  lemma HiddenHead(w: World, s: Settings, names: Names, paths: seq<string>, k: nat)
    requires !s.show && paths != [] && ReadImage(w.fs, paths[0]).Some?
    ensures ImageLoop(w, s, names, paths, k).frames == 1 + ImageLoop(w, s, names, paths[1..], k).frames
    ensures Truthy(s.outputDir) ==>
      WrittenPaths(ImageLoop(w, s, names, paths, k).written)
        == [Join(s.outputDir.value, Basename(paths[0]))] + WrittenPaths(ImageLoop(w, s, names, paths[1..], k).written)
  {
    ImageLoopHead(w, s, names, paths, k);
    var all := ImageLoop(w, s, names, paths, k).written;
    if Truthy(s.outputDir) {
      assert all != [] && all[1..] == ImageLoop(w, s, names, paths[1..], k).written;
      assert all[0].path == Join(s.outputDir.value, Basename(paths[0]));
    }
  }

  /** An image listed from a directory is written under its own entry name:
      the base name of `dir/name` is `name`. */
  lemma ListedImageKeepsName(dir: string, name: string, out: string)
    requires name != [] && forall i :: 0 <= i < |name| ==> name[i] != '/'
    ensures Join(out, Basename(Join(dir, name))) == Join(out, name)
  {
    BasenameOfJoin(dir, name);
  }

  /** Without the window no key is read: neither the keys pressed nor the
      position reached in them changes the image loop. */
  lemma {:induction false} ImageLoopIgnoresKeys(w: World, s: Settings, names: Names, paths: seq<string>, k1: nat, k2: nat, keys: seq<int>)
    requires !s.show
    ensures ImageLoop(w, s, names, paths, k1) == ImageLoop(w.(keys := keys), s, names, paths, k2)
    decreases |paths|
  {
    if paths != [] {
      ImageLoopIgnoresKeys(w, s, names, paths[1..], k1, k2, keys);
    }
  }

  /** The image loop after a readable first image: its output, if any, then
      the rest of the loop unless 'q' was pressed. */
  lemma ImageLoopHead(w: World, s: Settings, names: Names, paths: seq<string>, k: nat)
    requires paths != [] && ReadImage(w.fs, paths[0]).Some?
    ensures var a := ProcessFrame(w, names, s.beep, ReadImage(w.fs, paths[0]).value);
      var out := if Truthy(s.outputDir) then [Output(Join(s.outputDir.value, Basename(paths[0])), a.image, a.drawn)] else [];
      var rest := ImageLoop(w, s, names, paths[1..], if s.show then k + 1 else k);
      var all := ImageLoop(w, s, names, paths, k);
      if s.show && Quit(KeyAt(w.keys, k)) then all.frames == 1 && all.written == out
      else all.frames == 1 + rest.frames && all.written == out + rest.written
  {
  }

  lemma PrefixAfter<T>(out: seq<T>, a: seq<T>, b: seq<T>)
    requires IsPrefix(a, b)
    ensures IsPrefix(out + a, out + b) && IsPrefix(out, out + b)
  {
    assert (out + b)[..|out + a|] == out + b[..|a|];
    assert (out + b)[..|out|] == out;
  }

  /** Pressing 'q' only cuts the image loop short: what is written with the
      window shown is a prefix of what is written without it, and no more
      frames are annotated. */
  lemma {:induction false} QuitTruncatesImages(w: World, s: Settings, names: Names, paths: seq<string>, k: nat)
    ensures ImageLoop(w, s, names, paths, k).frames <= ImageLoop(w, s.(show := false), names, paths, k).frames
    ensures IsPrefix(ImageLoop(w, s, names, paths, k).written, ImageLoop(w, s.(show := false), names, paths, k).written)
    decreases |paths|
  {
    if paths != [] {
      var k' := if s.show then k + 1 else k;
      var hiddenSettings := s.(show := false);
      if ReadImage(w.fs, paths[0]).Some? {
        QuitTruncatesImages(w, s, names, paths[1..], k');
        assert w.(keys := w.keys) == w;
        ImageLoopIgnoresKeys(w, hiddenSettings, names, paths[1..], k, k', w.keys);
        ImageLoopHead(w, s, names, paths, k);
        ImageLoopHead(w, hiddenSettings, names, paths, k);
        var a := ProcessFrame(w, names, s.beep, ReadImage(w.fs, paths[0]).value);
        var out := if Truthy(s.outputDir) then [Output(Join(s.outputDir.value, Basename(paths[0])), a.image, a.drawn)] else [];
        var shownRest := ImageLoop(w, s, names, paths[1..], k');
        var hiddenRest := ImageLoop(w, hiddenSettings, names, paths[1..], k);
        assert ImageLoop(w, hiddenSettings, names, paths, k).written == out + hiddenRest.written;
        assert ImageLoop(w, hiddenSettings, names, paths, k).frames == 1 + hiddenRest.frames;
        PrefixAfter(out, shownRest.written, hiddenRest.written);
      } else {
        QuitTruncatesImages(w, s, names, paths[1..], k);
        assert ImageLoop(w, s, names, paths, k) == ImageLoop(w, s, names, paths[1..], k);
        assert ImageLoop(w, hiddenSettings, names, paths, k) == ImageLoop(w, hiddenSettings, names, paths[1..], k);
      }
    }
  }

  /** Nothing after the first failed read matters: the video loop over the
      whole capture is the loop over the frames before that read. */
  lemma {:induction false} VideoStopsAtFirstFailure(w: World, s: Settings, names: Names, frames: seq<Option<Image>>, j: nat, k: nat)
    requires j < |frames| && frames[j].None?
    ensures VideoLoop(w, s, names, frames, k) == VideoLoop(w, s, names, frames[..j], k)
    decreases j
  {
    if j > 0 && frames[0].Some? {
      assert frames[1..][j - 1] == frames[j];
      assert frames[..j][1..] == frames[1..][..j - 1];
      VideoStopsAtFirstFailure(w, s, names, frames[1..], j - 1, k);
      VideoStopsAtFirstFailure(w, s, names, frames[1..], j - 1, k + 1);
    }
  }

  /** Every frame the video loop writes goes to `output.mp4` in the output
      directory, and it writes only when an output directory is given. */
  lemma {:induction false} VideoWritesOneFile(w: World, s: Settings, names: Names, frames: seq<Option<Image>>, k: nat)
    ensures forall o :: o in VideoLoop(w, s, names, frames, k).written ==>
      Truthy(s.outputDir) && o.path == Join(s.outputDir.value, "output.mp4")
    decreases |frames|
  {
    if frames != [] && frames[0].Some? {
      VideoWritesOneFile(w, s, names, frames[1..], k);
      VideoWritesOneFile(w, s, names, frames[1..], k + 1);
    }
  }

  /** Without the window the video loop annotates every frame up to the
      first failed read (or the end of the capture), and writes each of them
      when an output directory is set. */
  lemma VideoWithoutWindow(w: World, s: Settings, names: Names, frames: seq<Option<Image>>, j: nat, k: nat)
    requires !s.show && j <= |frames|
    requires forall i :: 0 <= i < j ==> frames[i].Some?
    requires j == |frames| || frames[j].None?
    ensures VideoLoop(w, s, names, frames, k).frames == j
    ensures |VideoLoop(w, s, names, frames, k).written| == if Truthy(s.outputDir) then j else 0
  {
    VideoFramesWithoutWindow(w, s, names, frames, j, k);
    VideoWritesWithoutWindow(w, s, names, frames, j, k);
  }

  /** A frame read without the window: one annotated frame, one write when
      an output directory is set, then the rest of the capture. */
  lemma VideoHiddenHead(w: World, s: Settings, names: Names, frames: seq<Option<Image>>, k: nat)
    requires !s.show && frames != [] && frames[0].Some?
    ensures VideoLoop(w, s, names, frames, k).frames == 1 + VideoLoop(w, s, names, frames[1..], k).frames
    ensures |VideoLoop(w, s, names, frames, k).written|
      == (if Truthy(s.outputDir) then 1 else 0) + |VideoLoop(w, s, names, frames[1..], k).written|
  {
  }

  /** Shifting the frames after a run of `j` good reads. */
  lemma GoodPrefixTail(frames: seq<Option<Image>>, j: nat)
    requires 0 < j <= |frames|
    requires forall i :: 0 <= i < j ==> frames[i].Some?
    requires j == |frames| || frames[j].None?
    ensures frames[0].Some?
    ensures forall i :: 0 <= i < j - 1 ==> frames[1..][i].Some?
    ensures j - 1 == |frames[1..]| || frames[1..][j - 1].None?
  {
    assert frames[0].Some?;
  }

  lemma {:induction false} VideoFramesWithoutWindow(w: World, s: Settings, names: Names, frames: seq<Option<Image>>, j: nat, k: nat)
    requires !s.show && j <= |frames|
    requires forall i :: 0 <= i < j ==> frames[i].Some?
    requires j == |frames| || frames[j].None?
    ensures VideoLoop(w, s, names, frames, k).frames == j
    decreases j
  {
    if j > 0 {
      GoodPrefixTail(frames, j);
      VideoFramesWithoutWindow(w, s, names, frames[1..], j - 1, k);
      VideoHiddenHead(w, s, names, frames, k);
    }
  }

  lemma {:induction false} VideoWritesWithoutWindow(w: World, s: Settings, names: Names, frames: seq<Option<Image>>, j: nat, k: nat)
    requires !s.show && j <= |frames|
    requires forall i :: 0 <= i < j ==> frames[i].Some?
    requires j == |frames| || frames[j].None?
    ensures |VideoLoop(w, s, names, frames, k).written| == if Truthy(s.outputDir) then j else 0
    decreases j
  {
    if j > 0 {
      GoodPrefixTail(frames, j);
      VideoWritesWithoutWindow(w, s, names, frames[1..], j - 1, k);
      VideoHiddenHead(w, s, names, frames, k);
    }
  }

  /** With the window shown, 'q' after a frame ends the video loop with
      that frame as the last one annotated. */
  lemma VideoQuit(w: World, s: Settings, names: Names, frames: seq<Option<Image>>, k: nat)
    requires s.show && frames != [] && frames[0].Some? && Quit(KeyAt(w.keys, k))
    ensures VideoLoop(w, s, names, frames, k).frames == 1
    ensures |VideoLoop(w, s, names, frames, k).written| == if Truthy(s.outputDir) then 1 else 0
  {
  }

  // -----------------------------------------------------------------------
  // Properties of the classification

  /** A directory that is not a stream runs the image loop over its sorted
      listing. */
  lemma DirectoryRunsListing(w: World, s: Settings, p: string)
    requires w.model.Some? && !IsStream(Location(p)) && p in w.fs.dirs
    ensures Run(w, s, Location(p)) == Ran(ImageLoop(w, s, w.model.value, ImageListing(p, w.fs.dirs[p]), 0))
  {
  }

  /** A file that is not a stream, and not a directory, runs the image loop
      over itself alone. */
  lemma FileRunsAlone(w: World, s: Settings, p: string)
    requires w.model.Some? && !IsStream(Location(p)) && p !in w.fs.dirs && p in w.fs.files
    ensures Run(w, s, Location(p)) == Ran(ImageLoop(w, s, w.model.value, [p], 0))
  {
  }

  /** A path that is neither a stream, a directory nor a file is reported
      as not found, once the model has loaded. */
  lemma MissingPathNotFound(w: World, s: Settings, p: string)
    requires w.model.Some? && !IsStream(Location(p))
    requires p !in w.fs.dirs && p !in w.fs.files
    ensures Run(w, s, Location(p)) == NotFound(p)
  {
  }

  /** A path whose lower-case form ends in a video extension is a stream:
      when it cannot be opened the run reports that and returns, rather than
      raising `FileNotFoundError`, even when no such file exists. */
  lemma MissingVideoCannotOpen(w: World, s: Settings, p: string)
    requires w.model.Some? && EndsWithAny(Lower(p), [".mp4", ".avi", ".mov"])
    requires p !in w.fs.dirs && p !in w.fs.files && Location(p) !in w.streams
    ensures Run(w, s, Location(p)) == CannotOpen
  {
  }

  /** The stream test comes first: a directory whose name starts with
      "http" is opened as a stream, not listed. */
  lemma StreamCheckedBeforeDirectory(w: World, s: Settings, p: string)
    requires w.model.Some? && StartsWith(p, "http") && p in w.fs.dirs && Location(p) !in w.streams
    ensures Run(w, s, Location(p)) == CannotOpen
  {
  }

  /** A failed model load ends the run before the source is even classified. */
  lemma ModelLoadedFirst(w: World, s: Settings, source: Source)
    requires w.model.None?
    ensures Run(w, s, source) == ModelLoadFailed
  {
  }

  // -----------------------------------------------------------------------
  // main

  /** The parsed command line: `--input`, `--webcam`, `--android-url`,
      `--output`, `--show` and `--no-beep`. */
  datatype Args = Args(input: Option<string>, webcam: bool, androidUrl: Option<string>,
                       output: Option<string>, show: bool, noBeep: bool)

  /** What `main` does: print the help, or run one source. */
  datatype Command = Help | RunSource(source: Source, settings: Settings)

  function Dispatch(a: Args): (c: Command)
    ensures c.Help? <==> !a.webcam && !Truthy(a.androidUrl) && !Truthy(a.input)
    ensures c.RunSource? ==> c.settings == Settings(a.output, a.show, !a.noBeep)
    ensures c.RunSource? && !a.webcam && !Truthy(a.androidUrl) ==> c.source == Location(a.input.value)
  {
    var settings := Settings(a.output, a.show, !a.noBeep);
    if a.webcam then RunSource(Camera(0), settings)
    else if Truthy(a.androidUrl) then RunSource(Location(a.androidUrl.value), settings)
    else if !Truthy(a.input) then Help
    else RunSource(Location(a.input.value), settings)
  }

  /** `--webcam` wins: the camera at index 0 is run whatever the other
      source flags say. */
  lemma WebcamWins(a: Args, url: Option<string>, input: Option<string>)
    requires a.webcam
    ensures Dispatch(a) == Dispatch(a.(androidUrl := url, input := input))
    ensures Dispatch(a).RunSource? && Dispatch(a).source == Camera(0)
  {
  }

  /** Without `--webcam`, a non-empty `--android-url` wins over `--input`. */
  lemma AndroidUrlBeatsInput(a: Args, input: Option<string>)
    requires !a.webcam && Truthy(a.androidUrl)
    ensures Dispatch(a) == Dispatch(a.(input := input))
    ensures Dispatch(a).RunSource? && Dispatch(a).source == Location(a.androidUrl.value)
  {
  }

  /** `main()` with parsed arguments: None when it prints the help. */
  method Cli(args: Args, w: World, alerts: AlertSink) returns (outcome: Option<RunOutcome>)
    modifies alerts
    ensures Dispatch(args).Help? ==> outcome == None && alerts.scheduled == old(alerts.scheduled)
    ensures Dispatch(args).RunSource? ==> outcome == Some(Run(w, Dispatch(args).settings, Dispatch(args).source))
    ensures outcome.Some? ==> alerts.scheduled == old(alerts.scheduled) + (if outcome.value.Ran? then outcome.value.trace.beeps else 0)
  {
    var settings := Settings(args.output, args.show, !args.noBeep);
    if args.webcam {
      var r := RunOnPath(w, settings, Camera(0), alerts);
      return Some(r);
    }
    if Truthy(args.androidUrl) {
      var r := RunOnPath(w, settings, Location(args.androidUrl.value), alerts);
      return Some(r);
    }
    if !Truthy(args.input) {
      return None;
    }
    var r := RunOnPath(w, settings, Location(args.input.value), alerts);
    return Some(r);
  }
}
